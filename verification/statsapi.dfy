/** The stats card handler (api/index.js): the access guard, the locale check, the fetch
    request derived from the query, and the success and error replies. `parseArray`,
    `parseBoolean`, `isLocaleAvailable` and the blacklist are parameters (`Services`); the
    fetch-and-render step is an oracle from the request it receives to an `Attempt`. */
module StatsApi {
  import opened Wrappers
  import opened JsNumber
  import opened Envs
  import opened Http
  import opened Cache
  import opened Access
  import opened CardApi

  /** The arguments of `fetchStats(username, include_all_commits, exclude_repo,
      include_merged_pull_requests, include_discussions, include_discussions_answers,
      commits_year, env)`. */
  datatype StatsRequest = StatsRequest(
    username: Option<string>,
    includeAllCommits: Option<bool>,
    excludeRepo: seq<string>,
    includeMergedPullRequests: bool,
    includeDiscussions: bool,
    includeDiscussionsAnswers: bool,
    commitsYear: Option<int>)

  const LanguageNotFound := "Language not found"

  /** The fetch request built from the query; `show` is read with `parseArray`. */
  function StatsRequestOf(query: Query, services: Services): StatsRequest {
    var show := services.parseArray(Param(query, "show"));
    StatsRequest(
      Param(query, "username"),
      services.parseBoolean(Param(query, "include_all_commits")),
      services.parseArray(Param(query, "exclude_repo")),
      "prs_merged" in show || "prs_merged_percentage" in show,
      "discussions_started" in show,
      "discussions_answered" in show,
      ParseIntOpt(Param(query, "commits_year")))
  }

  /** The default export of api/index.js, for the query of `request.url` and the worker's `env`. */
  function HandleStats(query: Query, env: Env, processEnv: Env, services: Services,
                       fetch: StatsRequest -> Attempt<string>): (h: Handled<StatsRequest>)
    // The guard runs first; its refusal is the reply and nothing is fetched.
    ensures var access := GuardAccess(Param(query, "username"), "username", env, processEnv, services.blacklist);
            access.value.Blocked? ==> h == Handled(access.value.response, None)
    // Then the locale; an unknown one is a 400 and nothing is fetched.
    ensures !Refused(query, env, processEnv, services) && LocaleRejected(Param(query, "locale"), services.isLocaleAvailable)
            ==> h == Handled(BadRequest(LanguageNotFound), None)
    // The fetcher is called exactly when both checks pass, with the request the query describes.
    ensures h.request.Some? <==>
              !Refused(query, env, processEnv, services) && !LocaleRejected(Param(query, "locale"), services.isLocaleAvailable)
    ensures h.request.Some? ==>
              && h.request.value == StatsRequestOf(query, services)
              && h.response == Settle(StatsCard, fetch(h.request.value), Param(query, "cache_seconds"), env, processEnv)
  {
    match GuardAccess(Param(query, "username"), "username", env, processEnv, services.blacklist)
    case Failure(_) => assert false; Handled(BadRequest(LanguageNotFound), None)
    case Success(Blocked(response)) => Handled(response, None)
    case Success(Passed) =>
      if LocaleRejected(Param(query, "locale"), services.isLocaleAvailable) then
        Handled(BadRequest(LanguageNotFound), None)
      else
        var req := StatsRequestOf(query, services);
        Handled(Settle(StatsCard, fetch(req), Param(query, "cache_seconds"), env, processEnv), Some(req))
  }

  /** A blacklisted username, with no whitelist set, gets the 403 card and is never fetched,
      whatever else the query says. */
  lemma BlacklistedNeverFetched(query: Query, env: Env, processEnv: Env, services: Services,
                                fetch: StatsRequest -> Attempt<string>)
    requires "username" in query && query["username"] in services.blacklist
    requires !Truthy(ResolveEnv(env, processEnv), "WHITELIST")
    ensures var h := HandleStats(query, env, processEnv, services, fetch);
            && h.request.None?
            && h.response.status == 403
            && h.response.body == ErrorCard(BlacklistedUsername, Some(DeployYourOwn), Some(false))
  {
    assert GuardAccess(Param(query, "username"), "username", env, processEnv, services.blacklist)
           == Success(Blocked(Refusal(403, BlacklistedUsername)));
  }

  /** The entries of `show` that turn a fetch option on. */
  const ShowOptions: set<string> := {"prs_merged", "prs_merged_percentage", "discussions_started", "discussions_answered"}

  /** The fetch request is determined by the other parameters and by which of the four
      option names `show` lists: the order of its entries, repeats and every other entry
      are irrelevant, and `show` affects nothing but the three flags. */
  lemma StatsRequestDeterminedBy(q1: Query, q2: Query, services: Services)
    requires forall name :: name != "show" ==> Param(q1, name) == Param(q2, name)
    requires forall name :: name in ShowOptions ==>
               (name in services.parseArray(Param(q1, "show")) <==> name in services.parseArray(Param(q2, "show")))
    ensures StatsRequestOf(q1, services) == StatsRequestOf(q2, services)
  {
    assert Param(q1, "username") == Param(q2, "username");
    assert Param(q1, "include_all_commits") == Param(q2, "include_all_commits");
    assert Param(q1, "exclude_repo") == Param(q2, "exclude_repo");
    assert Param(q1, "commits_year") == Param(q2, "commits_year");
  }

  /** A listed option name turns its flag on wherever it sits in `show`, whatever else is listed. */
  lemma ListedOptionTurnsFlagOn(query: Query, services: Services, before: seq<string>, after: seq<string>)
    requires services.parseArray(Param(query, "show")) == before + ["discussions_answered"] + after
    ensures StatsRequestOf(query, services).includeDiscussionsAnswers
  {
    assert (before + ["discussions_answered"] + after)[|before|] == "discussions_answered";
  }

  /** Only the two merged-PR entries of `show` turn the merged-PR count on. */
  lemma MergedFlagFromShow(query: Query, services: Services)
    requires services.parseArray(Param(query, "show")) == ["prs_merged_percentage"]
    ensures StatsRequestOf(query, services).includeMergedPullRequests
    ensures !StatsRequestOf(query, services).includeDiscussions
    ensures !StatsRequestOf(query, services).includeDiscussionsAnswers
  {
  }

  /** When the fetch succeeds, the reply is a 200 card whose cache lifetime is the stats
      card's range applied to `?cache_seconds=`; when it throws, a 500 card. */
  lemma FetchDecidesStatus(query: Query, env: Env, processEnv: Env, services: Services,
                           fetch: StatsRequest -> Attempt<string>)
    requires !Refused(query, env, processEnv, services)
    requires !LocaleRejected(Param(query, "locale"), services.isLocaleAvailable)
    ensures var h := HandleStats(query, env, processEnv, services, fetch);
            && h.request == Some(StatsRequestOf(query, services))
            && (h.response.status == 200 <==> fetch(StatsRequestOf(query, services)).Rendered?)
            && (h.response.status == 500 <==> fetch(StatsRequestOf(query, services)).Threw?)
  {
  }
}
