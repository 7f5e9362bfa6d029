/** The WakaTime stats fetcher (src/fetchers/wakatime.js): the parameter check, the
    request URL and the mapping of the reply. The HTTP request itself is an oracle from
    the requested URL to a reply; the stats record is kept opaque as a string. */
module Wakatime {
  import opened Wrappers
  import opened Strings

  const DefaultDomain := "wakatime.com"
  const UserNotFoundCode := "WAKATIME_USER_NOT_FOUND"

  /** The parsed JSON body of a reply: `null`, or any other value, whose `data` is
      `result.data`, possibly `undefined` (always `undefined` for a number, string or boolean). */
  datatype ReplyJson = JsonNull | JsonValue(data: Option<string>)

  /** What `fetch` produced: a rejected promise, or a response whose body is JSON or not. */
  datatype Reply = NetworkFailure | Answered(ok: bool, json: Option<ReplyJson>)

  datatype WakatimeError =
    | MissingParam(missing: seq<string>)
    | CustomError(message: string, code: string)
    /** The rejection of `fetch` or of `response.json()`, passed through unchanged. */
    | Rejected(reply: Reply)
    /** The TypeError of reading `data` from a `null` body. */
    | NullResult

  datatype Outcome = Fetched(data: Option<string>) | Raised(error: WakatimeError)

  /** The outcome, and the URL requested if any. */
  datatype FetchRun = FetchRun(requested: Option<string>, outcome: Outcome)

  /** The host: `api_domain` without one trailing slash, or `wakatime.com` when absent or empty. */
  function Domain(apiDomain: Option<string>): (d: string)
    ensures apiDomain.None? || apiDomain == Some("") ==> d == DefaultDomain
    ensures apiDomain.Some? && apiDomain.value != "" ==>
              apiDomain.value == d || apiDomain.value == d + "/"
    ensures apiDomain.Some? && apiDomain.value != "" && apiDomain.value[|apiDomain.value| - 1] == '/' ==>
              apiDomain.value == d + "/"
    ensures apiDomain.Some? && apiDomain.value != "" && apiDomain.value[|apiDomain.value| - 1] != '/' ==>
              d == apiDomain.value
  {
    if apiDomain.Some? && apiDomain.value != "" then StripTrailingSlash(apiDomain.value) else DefaultDomain
  }

  const Scheme := "https://"
  const UsersPath := "api/v1/users/"
  const StatsQuery := "stats?is_including_today=true"

  /** `https://{domain}/api/v1/users/{username}/stats?is_including_today=true`. */
  function StatsUrl(domain: string, username: string): string {
    Scheme + domain + ['/'] + UsersPath + username + ['/'] + StatsQuery
  }

  function NotFoundMessage(username: string): string {
    "Could not resolve to a User with the login of '" + username + "'"
  }

  /** `fetchWakatimeStats({ username, api_domain })` against the reply oracle `request`. */
  function FetchWakatimeStats(username: Option<string>, apiDomain: Option<string>, request: string -> Reply)
    : (run: FetchRun)
    ensures username.None? || username == Some("") <==> run.requested.None?
    ensures run.requested.None? ==> run.outcome == Raised(MissingParam(["username"]))
    ensures run.requested.Some? ==>
              && run.requested.value == StatsUrl(Domain(apiDomain), username.value)
              && var reply := request(run.requested.value);
                 match reply
                 case Answered(true, Some(JsonNull)) => run.outcome == Raised(NullResult)
                 case Answered(true, Some(JsonValue(data))) => run.outcome == Fetched(data)
                 case Answered(false, Some(_)) =>
                   run.outcome == Raised(CustomError(NotFoundMessage(username.value), UserNotFoundCode))
                 case _ => run.outcome == Raised(Rejected(reply))
  {
    if username.None? || username.value == "" then FetchRun(None, Raised(MissingParam(["username"])))
    else
      var url := StatsUrl(Domain(apiDomain), username.value);
      var reply := request(url);
      var outcome :=
        if reply.NetworkFailure? || reply.json.None? then Raised(Rejected(reply))
        else if !reply.ok then Raised(CustomError(NotFoundMessage(username.value), UserNotFoundCode))
        else if reply.json.value.JsonNull? then Raised(NullResult)
        else Fetched(reply.json.value.data);
      FetchRun(Some(url), outcome)
  }

  /** Past the parameter check, the stats are returned exactly when the reply is ok and its
      body is JSON other than `null`; every other reply raises. */
  lemma FetchedIffOkObject(username: string, apiDomain: Option<string>, request: string -> Reply)
    requires username != ""
    ensures var reply := request(StatsUrl(Domain(apiDomain), username));
            FetchWakatimeStats(Some(username), apiDomain, request).outcome.Fetched? <==>
              reply.Answered? && reply.ok && reply.json.Some? && reply.json.value.JsonValue?
  {
  }

  /** The prefix of `s` before the first `c`, all of `s` when there is none. */
  function Before(s: string, c: char): (p: string)
    ensures c !in p && (p == s || p + [c] <= s)
  {
    if |s| == 0 || s[0] == c then [] else [s[0]] + Before(s[1..], c)
  }

  lemma {:induction false} BeforeOfJoin(p: string, c: char, rest: string)
    requires c !in p
    ensures Before(p + [c] + rest, c) == p
  {
    if |p| > 0 {
      assert (p + [c] + rest)[1..] == p[1..] + [c] + rest;
      BeforeOfJoin(p[1..], c, rest);
    }
  }

  /** The host read back from a stats URL. */
  function HostOf(url: string): string {
    if |url| >= |Scheme| then Before(url[|Scheme|..], '/') else ""
  }

  /** The username read back from a stats URL whose host is known. */
  function UserOf(url: string, host: string): string {
    var start := |Scheme| + |host| + 1 + |UsersPath|;
    if |url| >= start then Before(url[start..], '/') else ""
  }

  /** The two slash-free fields of `a + d + "/" + b + u + "/" + q` are read back. */
  lemma ReadFields(a: string, d: string, b: string, u: string, q: string)
    requires '/' !in d && '/' !in u
    ensures Before((a + d + ['/'] + b + u + ['/'] + q)[|a|..], '/') == d
    ensures Before((a + d + ['/'] + b + u + ['/'] + q)[|a| + |d| + 1 + |b|..], '/') == u
  {
    var s := a + d + ['/'] + b + u + ['/'] + q;
    assert s[|a|..] == d + ['/'] + (b + u + ['/'] + q);
    BeforeOfJoin(d, '/', b + u + ['/'] + q);
    assert s[|a| + |d| + 1 + |b|..] == u + ['/'] + q;
    BeforeOfJoin(u, '/', q);
  }

  /** A slash-free host and username are read back from the URL they build, so distinct
      requests go to distinct URLs. */
  lemma StatsUrlRoundTrip(domain: string, username: string)
    requires '/' !in domain && '/' !in username
    ensures HostOf(StatsUrl(domain, username)) == domain
    ensures UserOf(StatsUrl(domain, username), domain) == username
  {
    ReadFields(Scheme, domain, UsersPath, username, StatsQuery);
  }

  lemma StatsUrlInjective(d1: string, u1: string, d2: string, u2: string)
    requires '/' !in d1 && '/' !in u1 && '/' !in d2 && '/' !in u2
    requires StatsUrl(d1, u1) == StatsUrl(d2, u2)
    ensures d1 == d2 && u1 == u2
  {
    StatsUrlRoundTrip(d1, u1);
    StatsUrlRoundTrip(d2, u2);
  }

  /** Only one trailing slash of `api_domain` is dropped. */
  lemma OneSlashStripped(host: string)
    requires host != ""
    ensures Domain(Some(host + "/")) == host
    ensures Domain(Some(host + "//")) == host + "/"
  {
    StripAppendedSlash(host);
  }
}
