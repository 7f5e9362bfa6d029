# github-readme-stats worker core, in Dafny

This project models the decision logic of the Cloudflare Worker edition of
github-readme-stats, the service that renders GitHub statistics as SVG cards:

- **the credential-rotating retry engine** (`retryer`): it counts the `PAT_n` tokens, derives the
  attempt budget, classifies each fetcher outcome (rate limited, bad or suspended credential,
  network failure, HTTP error, final) and rotates to the next token or settles;
- **cache lifetimes and headers**: the `CACHE_TTL` table, `resolveCacheSeconds` and the two header
  builders;
- **the access guard** (`guardAccess`) and the comma-separated environment lists it reads;
- **the worker's router** with its 404 and 500 fallbacks;
- **the WakaTime fetcher's** parameter check, request URL and reply mapping;
- **the stats and top-languages card handlers**: the order of their checks, the fetch request
  they derive from the query, and their 200 / 400 / 500 replies.

Everything is a pure function over immutable datatypes. The environment is a
`map<string, string>`, and the process environment it falls back to is an explicit second map.
JavaScript `parseInt(_, 10)` is modelled concretely, with NaN as `None`. The fetchers, the
renderers and the other collaborators that are not part of this model are function-typed
parameters (oracles). A retry run returns its result together with the sequence of calls it made,
so the number of calls and the token each call received can be stated.

Modules, one per source file plus shared pieces:

- `Wrappers`: `Option` and `Result`.
- `Strings`: split, join, trailing-slash strip and ASCII case-insensitive search.
- `JsNumber`: `parseInt` and number-to-string.
- `Envs`: `src/common/envs.js`.
- `Retryer`: `src/common/retryer.js`.
- `Http`: the response shape.
- `Cache`: `src/common/cache.js`.
- `Access`: `src/common/access.js`.
- `Worker`: `src/worker.js`.
- `Wakatime`: `src/fetchers/wakatime.js`.
- `CardApi`: the pieces both handlers share.
- `StatsApi`: `api/index.js`.
- `TopLangsApi`: `api/top-langs.js`.

## Model

| member | source | states |
|---|---|---|
| Strings.Split | src/common/envs.js:8 | `split(",")` yields at least one piece, no piece contains the separator, and the pieces joined with it rebuild the input |
| Strings.SplitJoin | src/common/envs.js:8 | splitting a join of non-empty, separator-free pieces gives the pieces back |
| Strings.StripTrailingSlash | src/worker.js:17 | `replace(/\/$/, "")` removes exactly one trailing slash when there is one and leaves every other string unchanged |
| Strings.StripAppendedSlash | src/worker.js:17 | stripping `s + "/"` gives `s`, and stripping `s + "//"` gives `s + "/"` |
| JsNumber.ParseIntOfIntToString | src/common/cache.js:83 | `parseInt(_, 10)` reads back the decimal rendering of every integer, whatever non-digit text follows it |
| Envs.EmptyEnvReadsProcessEnv | src/common/envs.js:1-35 | each reader handed an empty `env` reads exactly what it reads when handed the non-empty process environment itself |
| Envs.NonEmptyEnvHidesProcessEnv | src/common/envs.js:1-35 | with a non-empty `env`, no reader's result depends on the process environment |
| Envs.SplitBinding | src/common/envs.js:8 | absent exactly when the binding is missing or empty; otherwise comma-free pieces that join back to the binding |
| Envs.GetWhitelist | src/common/envs.js:1-9 | `undefined` exactly when `WHITELIST` is unset or empty in the resolved environment; otherwise its comma-split, which joins back to it |
| Envs.GetGistWhitelist | src/common/envs.js:11-21 | the same for `GIST_WHITELIST` |
| Envs.GetExcludeRepositories | src/common/envs.js:27-35 | `[]` (never undefined) when `EXCLUDE_REPO` is unset or empty; otherwise a non-empty comma-split that joins back to it |
| Envs.WhitelistRoundTrip | src/common/envs.js:8 | a whitelist written as comma-separated names is read back name for name |
| Retryer.PatRunBound | src/common/retryer.js:30-32 | a run of n truthy `PAT_1 … PAT_n` needs n distinct keys, so the counting loop cannot run past the environment's size |
| Retryer.CountFrom | src/common/retryer.js:29-32 | the count continued from i truthy tokens ends at some n ≥ i with `PAT_1 … PAT_n` truthy and `PAT_{n+1}` not |
| Retryer.TokenCount | src/common/retryer.js:29-32 | the token count is the length of the unbroken run of truthy `PAT_1, PAT_2, …` |
| Retryer.TokenCountUnique | src/common/retryer.js:29-32 | any n with that run property is the token count |
| Retryer.Budget | src/common/retryer.js:34 | `RETRIES` is 7 when `NODE_ENV` is `"test"`, otherwise the token count |
| Retryer.ClassifyRules | src/common/retryer.js:56-111 | a response rotates for the rate limit exactly when its `errors[0]` exists and is typed `RATE_LIMITED` or its message contains "rate limit" in any case; later errors are never looked at. Rotation on a credential message holds exactly when the response rule (checked after the rate limit) or the thrown rule (status or response present) applies. A value thrown without status and response is rethrown, and exactly then. Otherwise the settled value is the response, the thrown value's response, or the thrown value itself |
| Retryer.MessageRateLimited | src/common/retryer.js:58-62 | an error of any type, present or not, whose message contains "rate limit" in any letter case at any position counts as rate limited |
| Retryer.Attempts | src/common/retryer.js:36-111 | budget 0 raises "No GitHub API tokens found" with no call; an attempt past the budget raises MaxRetry with no call. Otherwise there are 1 … budget+1−retries calls, call i is attempt retries+i with token `PAT_{retries+i+1}`, and every call before the last rotated. The run ends with the last call's settled result, or, after exactly budget+1−retries calls of which the last also rotated, with "Downtime due to GitHub API rate limiting" |
| Retryer.Retryer | src/common/retryer.js:20-54 | corrected engine: every call's token is `PAT_{attempt+1}` of the resolved environment |
| Retryer.RetryerAsWritten | src/common/retryer.js:49-54 | engine as written: every call's token is `PAT_{attempt+1}` of the caller's `env`, not the resolved one |
| Retryer.MaxRetryIff | src/common/retryer.js:40-45 | the run gives up on rate limiting exactly when every attempt from `retries` to the budget asked for a rotation |
| Retryer.AlwaysRateLimited | src/common/retryer.js:40-70 | an always rate-limited fetcher is called exactly RETRIES+1 times, attempt k with token `PAT_{k+1}`, and the run fails with MaxRetry |
| Retryer.TestModeAlwaysRateLimited | src/common/retryer.js:34 | in test mode an always rate-limited fetcher is called eight times before the run fails |
| Retryer.NoTokensNoCalls | src/common/retryer.js:36-38 | with no `PAT_1` and no test mode the run raises NoTokens before any call |
| Retryer.SettlesAtOnce | src/common/retryer.js:83-84 | an attempt that settles ends the run after that one call, with its result unchanged |
| Retryer.RotateOnceThenSettle | src/common/retryer.js:65-70 | one rotation followed by a settling attempt makes exactly two calls and returns the second attempt's result |
| Retryer.NetworkFailureRethrown | src/common/retryer.js:90-92 | a value thrown without status or response is rethrown after a single call |
| Retryer.AsWrittenDropsFallbackToken | src/common/retryer.js:51 | with `env = {}` and `PAT_1` only in the process environment, the code as written calls the fetcher once with an undefined token; the corrected engine passes `PAT_1` |
| Retryer.EngineErrorMessages | src/common/retryer.js:36-45 | "No GitHub API tokens found" is raised exactly when the budget is 0; "Downtime due to GitHub API rate limiting" exactly when the budget is positive and every attempt from `retries` to the budget rotated |
| Retryer.AsWrittenAgreesWithExplicitEnv | src/common/retryer.js:22-51 | with a non-empty `env` the code as written and the corrected engine make the same calls and settle alike |
| Cache.DayInSeconds | src/common/cache.js:5-28 | a day is 24·60·60 = 86400 seconds, and twelve hours < one day < two days < six days < ten days |
| Cache.CardTtl | src/common/cache.js:34-61 | every card's TTL has 0 < MIN ≤ DEFAULT ≤ MAX, within twelve hours … ten days |
| Cache.Clamp | src/common/cache.js:74 | the clamped value lies in [lo, hi]; an in-range value is unchanged; a value at or below lo gives lo; one at or above hi gives hi |
| Cache.ResolveCacheSeconds | src/common/cache.js:73-90 | a parseable `CACHE_SECONDS` wins unclamped. Otherwise the result lies in [min, max]: an in-range request is kept, a request ≤ min gives min, a request ≥ max gives max, and NaN gives the default |
| Cache.StatsCardClampExamples | tests/api.test.js:255-295 | for the stats card a request of 200000 resolves to two days, and 0 or −10000 to twelve hours |
| Cache.OverrideNotClamped | src/common/cache.js:82-87 | any integer written into `CACHE_SECONDS` is the result, whatever the request and the range |
| Cache.GetCacheHeaders | src/common/cache.js:99-119 | the no-cache triple exactly when seconds < 1 or `NODE_ENV` is development; otherwise only `Cache-Control`, whose value is exactly the directives `max-age=seconds`, `s-maxage=seconds` and `stale-while-revalidate=86400`, in that order and nothing more, and a cache reads those lifetimes back |
| Cache.GetErrorCacheHeaders | src/common/cache.js:127-153 | the no-cache triple exactly when `CACHE_SECONDS` parses to less than 1 or in development; otherwise only `Cache-Control`, whose value is exactly the three directives of the 600-second error TTL and stale-while-revalidate = 86400, in that order |
| Cache.CacheControlReadBack | src/common/cache.js:116-118 | splitting the header on commas and reading each directive gives back the lifetimes it was built from |
| Cache.SplitCacheControl | src/common/cache.js:116-118 | the header splits on commas into exactly its three directives, in order |
| Cache.CachingHeaderFor | src/common/cache.js:116-118 | the map built for a lifetime holds only `Cache-Control` with exactly those three directives, and differs from the no-cache headers |
| Access.GuardAccess | src/common/access.js:22-91 | an unknown type throws, and only then. 401 with the gist or username message exactly when the kind's whitelist is set and lacks the id. 403 exactly when the kind is username, no whitelist is set and the id is blacklisted. Passed exactly in every other case |
| Access.WhitelistOverridesBlacklist | src/common/access.js:36-64 | a whitelisted id passes even when it is blacklisted |
| Access.RefusalShape | src/common/access.js:36-88 | gist and WakaTime refusals are always 401 (never blacklisted); every refusal has `Cache-Control: no-store` and `show_repo_link: false` |
| Access.UsernameGuardNeverThrows | src/common/access.js:23-27 | the username guard the handlers use never throws |
| Worker.RouteOf | src/worker.js:17-30 | a pathname selects a route exactly when it is the route's path, with or without one trailing slash |
| Worker.Fetch | src/worker.js:47-59 | unrouted paths get the JSON 404; a routed handler's reply is passed through; a throw becomes a JSON 500 "Internal Server Error" carrying the message exactly when it is defined |
| Worker.OneTrailingSlash | src/worker.js:17 | every route path is reached bare and with one trailing slash, and not with two |
| Worker.RoutePathInjective | src/worker.js:20-30 | distinct routes have distinct paths |
| Worker.NotFoundIffUnrouted | src/worker.js:31-35 | when no handler itself answers 404 Not Found, that reply comes exactly from unrouted paths |
| Wakatime.Domain | src/fetchers/wakatime.js:17-18 | `wakatime.com` when `api_domain` is absent or empty; otherwise `api_domain` with its one trailing slash removed when it ends in a slash, and unchanged when it does not |
| Wakatime.FetchWakatimeStats | src/fetchers/wakatime.js:11-31 | a missing or empty username raises MissingParamError(["username"]) and requests nothing. Otherwise it requests the stats URL of the domain and user. A body that is not JSON (or a network failure) is a rejection, whatever the status. A non-ok JSON reply raises the not-found message with code WAKATIME_USER_NOT_FOUND. An ok reply whose body is `null` raises the TypeError of reading `result.data`; any other ok one yields `result.data` |
| Wakatime.FetchedIffOkObject | src/fetchers/wakatime.js:21-30 | past the parameter check, the stats are returned exactly when the reply is ok and its JSON body is not `null` |
| Wakatime.StatsUrlRoundTrip | src/fetchers/wakatime.js:16-20 | the host and username of a stats URL are read back from it when neither contains a slash |
| Wakatime.StatsUrlInjective | src/fetchers/wakatime.js:16-20 | slash-free distinct (domain, username) pairs give distinct URLs |
| Wakatime.OneSlashStripped | src/fetchers/wakatime.js:18 | only one trailing slash of `api_domain` is removed |
| CardApi.SvgWith | api/index.js:144-150 | the merged headers are the cache headers plus `Content-Type: image/svg+xml`, nothing else |
| CardApi.Success | api/index.js:104-151 | a 200 card whose headers are the SVG content type plus the cache headers of the card's TTL applied to `?cache_seconds=` |
| CardApi.ErrorResponse | api/index.js:152-196 | a 500 card with the error cache headers. An `Error` shows its message and secondary message, with the repo link exactly unless it is a MissingParamError. Any other value shows "An unknown error occurred" |
| CardApi.Settle | api/index.js:91-196 | the reply is 200 exactly when the fetch-and-render succeeded, and is then the success card; otherwise it is the error card |
| CardApi.RepoLinkOnlyForOtherErrors | api/index.js:165 | the repository link is shown exactly for errors other than MissingParamError |
| CardApi.SuccessCachedWithinRange | api/index.js:104-114 | without `CACHE_SECONDS` and outside development, a card's max-age always lies in its TTL range |
| StatsApi.StatsRequestDeterminedBy | api/index.js:92-103 | the fetch arguments depend only on the other parameters and on which of `prs_merged`, `prs_merged_percentage`, `discussions_started`, `discussions_answered` the parsed `show` lists: order, repeats and other entries make no difference |
| StatsApi.ListedOptionTurnsFlagOn | api/index.js:100 | `discussions_answered` anywhere in `show`, among any other entries, turns its flag on |
| StatsApi.HandleStats | api/index.js:20-197 | a guard refusal is the reply and nothing is fetched; then an unknown locale is a 400 "Language not found" with no fetch; the fetcher is called exactly when both pass, with the request the query describes, and the reply is settled from its outcome with the stats TTL |
| StatsApi.BlacklistedNeverFetched | api/index.js:55-69 | a blacklisted username with no whitelist gets the 403 card and is never fetched |
| StatsApi.MergedFlagFromShow | api/index.js:97-98 | `show=prs_merged_percentage` alone turns on merged PRs and neither discussion count |
| StatsApi.FetchDecidesStatus | api/index.js:91-196 | once both checks pass, the reply is 200 exactly when the fetch succeeds and 500 exactly when it throws |
| TopLangsApi.FirstInvalid | api/top-langs.js:65-122 | locale, then layout, then stats_format: each message is reported exactly when its check fails and every earlier one passes; none exactly when all pass |
| TopLangsApi.HandleTopLangs | api/top-langs.js:20-217 | a guard refusal is the reply; then the first failing check's 400; the fetcher is called exactly when the guard and all checks pass, and the reply is settled from its outcome with the top-languages TTL |
| TopLangsApi.AbsentOptionsAccepted | api/top-langs.js:82-106 | absent `layout` and `stats_format` never fail validation |
| TopLangsApi.ListedOptionsAccepted | api/top-langs.js:82-107 | every listed layout with every listed stats format passes validation |
| TopLangsApi.LocaleReportedFirst | api/top-langs.js:65-80 | an unknown locale is reported as "Locale not found", whatever layout and stats_format say |
| TopLangsApi.UnknownLayoutRefused | api/top-langs.js:82-101 | `layout=grid` is refused with a 400 "Incorrect layout input" and nothing is fetched |

## Left out

- Logging (`logger.log` on rotation, `console.error` in the worker): it has no effect on results.
- The legacy `res.send` branch of `guardAccess`: the worker never passes `res`.
- SVG rendering (`renderError`, `renderStatsCard`, `renderTopLanguages`) and the colour options:
  a card is represented by its message fields or by the data handed to the renderer.
- `parseArray`, `parseBoolean`, `isLocaleAvailable` and the blacklist's contents are parameters
  (`CardApi.Services`), because their sources are not part of this model.
- `src/common/error.js` is not part of this model. A thrown `Error` is its message, what
  `retrieveSecondaryMessage` finds on it, and whether it is a `MissingParamError`.
- `src/common/ops.js` is not part of this model. `clampValue` is taken as
  `Math.max(min, Math.min(n, max))`, which fits every expectation written in tests/api.test.js.
- `fetchStats`, `fetchTopLanguages`, ranking and statistics aggregation (`src/fetchers/stats.js`,
  `src/calculateRank.js`) are not part of this model. The fetch-and-render step of each handler is
  an oracle from the request it receives to a rendered card or a thrown value.
- `api/pin.js`, `api/gist.js` and `api/wakatime.js`: the same pipeline as `api/index.js` with other
  TTL constants. Their TTLs are in `Cache.CardTtl`, and the worker routes to them through the
  handler oracle.
- `src/common/http.js` is a single `fetch` call and is pure I/O. The retry engine's fetcher and the
  WakaTime request are oracles.
- URL parsing (`new URL`, `searchParams`): the worker takes the pathname, the handlers take the query
  as a map. The last of repeated parameters wins.
- Promises and `async`: every operation is modelled as the value its promise settles to. A rejected
  recursive `retryer` call is returned, not awaited, inside the `try`, so it propagates; the model
  does the same.
- JavaScript numbers: `parseInt` results are unbounded integers. Precision loss past 2^53 and the
  number-to-string form of very large values are not modelled.
- `/rate limit/i` is modelled as ASCII case folding. For an ASCII pattern this is what the
  non-Unicode `i` flag does.
- Retryer.Attempts: the source recomputes `RETRIES` from the same environment on every recursive
  call; the model computes it once and passes it down, which gives the same value.
- Retryer.Classify: a response or thrown value is modelled by the fields the engine reads
  (`data.errors`, `data.message`, `status`, `response`). Non-object bodies are `None`.
- Wakatime.FetchWakatimeStats: the stats record is opaque, and the request oracle decides the
  reply from the URL alone.

## Findings

| source | as written | input that shows it | evidently intended | confidence | as-written member | corrected member |
|---|---|---|---|---|---|---|
| src/common/retryer.js:51 | the token handed to the fetcher is `env["PAT_" + (retries + 1)]`, read from the caller's `env` | `env = {}` and a process environment holding only `PAT_1 = "t"`: `RETRIES` is 1, counted in the process environment, yet the fetcher receives `undefined` | read the token from `resolvedEnv`, the same map the tokens were counted in | not executed | Retryer.AsWrittenDropsFallbackToken | Retryer.Retryer |
