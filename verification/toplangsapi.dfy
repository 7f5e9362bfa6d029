/** The top-languages card handler (api/top-langs.js): the access guard, then the locale,
    `layout` and `stats_format` checks in that order, then the fetch. The collaborators
    are parameters as for the stats handler. */
module TopLangsApi {
  import opened Wrappers
  import opened Envs
  import opened Http
  import opened Cache
  import opened Access
  import opened CardApi

  const Layouts: seq<string> := ["compact", "normal", "donut", "donut-vertical", "pie"]
  const StatsFormats: seq<string> := ["bytes", "percentages"]

  const LocaleNotFound := "Locale not found"
  const IncorrectLayout := "Incorrect layout input"
  const IncorrectStatsFormat := "Incorrect stats_format input"

  /** The arguments of `fetchTopLanguages(username, exclude_repo, size_weight, count_weight, env)`. */
  datatype TopLangsRequest = TopLangsRequest(
    username: Option<string>,
    excludeRepo: seq<string>,
    sizeWeight: Option<string>,
    countWeight: Option<string>)

  /** A present value outside the allowed ones; query values are always strings, so the
      source's `typeof` test never fires. */
  predicate OutsideOf(value: Option<string>, allowed: seq<string>) {
    value.Some? && value.value !in allowed
  }

  /** The secondary message of the first failing query check, if any. */
  function FirstInvalid(query: Query, isLocaleAvailable: string -> bool): (m: Option<string>)
    ensures m == Some(LocaleNotFound) <==> LocaleRejected(Param(query, "locale"), isLocaleAvailable)
    ensures m == Some(IncorrectLayout) <==>
              !LocaleRejected(Param(query, "locale"), isLocaleAvailable) && OutsideOf(Param(query, "layout"), Layouts)
    ensures m == Some(IncorrectStatsFormat) <==>
              && !LocaleRejected(Param(query, "locale"), isLocaleAvailable)
              && !OutsideOf(Param(query, "layout"), Layouts)
              && OutsideOf(Param(query, "stats_format"), StatsFormats)
    ensures m.None? <==>
              && !LocaleRejected(Param(query, "locale"), isLocaleAvailable)
              && !OutsideOf(Param(query, "layout"), Layouts)
              && !OutsideOf(Param(query, "stats_format"), StatsFormats)
  {
    if LocaleRejected(Param(query, "locale"), isLocaleAvailable) then Some(LocaleNotFound)
    else if OutsideOf(Param(query, "layout"), Layouts) then Some(IncorrectLayout)
    else if OutsideOf(Param(query, "stats_format"), StatsFormats) then Some(IncorrectStatsFormat)
    else None
  }

  function TopLangsRequestOf(query: Query, services: Services): TopLangsRequest {
    TopLangsRequest(Param(query, "username"), services.parseArray(Param(query, "exclude_repo")),
                    Param(query, "size_weight"), Param(query, "count_weight"))
  }

  /** The default export of api/top-langs.js. */
  function HandleTopLangs(query: Query, env: Env, processEnv: Env, services: Services,
                          fetch: TopLangsRequest -> Attempt<string>): (h: Handled<TopLangsRequest>)
    ensures var access := GuardAccess(Param(query, "username"), "username", env, processEnv, services.blacklist);
            access.value.Blocked? ==> h == Handled(access.value.response, None)
    ensures var invalid := FirstInvalid(query, services.isLocaleAvailable);
            !Refused(query, env, processEnv, services) && invalid.Some? ==> h == Handled(BadRequest(invalid.value), None)
    ensures h.request.Some? <==>
              !Refused(query, env, processEnv, services) && FirstInvalid(query, services.isLocaleAvailable).None?
    ensures h.request.Some? ==>
              && h.request.value == TopLangsRequestOf(query, services)
              && h.response == Settle(TopLangsCard, fetch(h.request.value), Param(query, "cache_seconds"), env, processEnv)
  {
    match GuardAccess(Param(query, "username"), "username", env, processEnv, services.blacklist)
    case Failure(_) => assert false; Handled(BadRequest(LocaleNotFound), None)
    case Success(Blocked(response)) => Handled(response, None)
    case Success(Passed) =>
      match FirstInvalid(query, services.isLocaleAvailable)
      case Some(message) => Handled(BadRequest(message), None)
      case None =>
        var req := TopLangsRequestOf(query, services);
        Handled(Settle(TopLangsCard, fetch(req), Param(query, "cache_seconds"), env, processEnv), Some(req))
  }

  /** Absent `layout` and `stats_format` parameters never fail validation. */
  lemma AbsentOptionsAccepted(query: Query, isLocaleAvailable: string -> bool)
    requires "layout" !in query && "stats_format" !in query
    ensures FirstInvalid(query, isLocaleAvailable) !in {Some(IncorrectLayout), Some(IncorrectStatsFormat)}
  {
  }

  /** Every listed layout and stats format is accepted. */
  lemma ListedOptionsAccepted(query: Query, isLocaleAvailable: string -> bool)
    requires "layout" in query && query["layout"] in Layouts
    requires "stats_format" in query && query["stats_format"] in StatsFormats
    requires !LocaleRejected(Param(query, "locale"), isLocaleAvailable)
    ensures FirstInvalid(query, isLocaleAvailable).None?
  {
  }

  /** An unknown locale is reported even when `layout` and `stats_format` are also wrong:
      the first failing check wins. */
  lemma LocaleReportedFirst(query: Query, env: Env, processEnv: Env, services: Services,
                            fetch: TopLangsRequest -> Attempt<string>)
    requires !Refused(query, env, processEnv, services)
    requires LocaleRejected(Param(query, "locale"), services.isLocaleAvailable)
    ensures HandleTopLangs(query, env, processEnv, services, fetch) == Handled(BadRequest(LocaleNotFound), None)
  {
  }

  /** `?layout=grid` is refused with a 400 before anything is fetched. */
  lemma UnknownLayoutRefused(query: Query, env: Env, processEnv: Env, services: Services,
                             fetch: TopLangsRequest -> Attempt<string>)
    requires !Refused(query, env, processEnv, services)
    requires !LocaleRejected(Param(query, "locale"), services.isLocaleAvailable)
    requires "layout" in query && query["layout"] == "grid"
    ensures var h := HandleTopLangs(query, env, processEnv, services, fetch);
            h.request.None? && h.response.status == 400
            && h.response.body == ErrorCard("Something went wrong", Some(IncorrectLayout), None)
  {
    assert "grid" != Layouts[0] && "grid" != Layouts[1] && "grid" != Layouts[2];
    assert "grid" !in Layouts;
  }
}
