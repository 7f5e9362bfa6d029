/** The whitelist/blacklist guard in front of every card (src/common/access.js).
    The blacklist's contents are not part of this model: it is a parameter. */
module Access {
  import opened Wrappers
  import opened Envs
  import opened Http

  const NotWhitelistedUsername := "This username is not whitelisted"
  const NotWhitelistedGist := "This gist ID is not whitelisted"
  const BlacklistedUsername := "This username is blacklisted"
  const DeployYourOwn := "Please deploy your own instance"
  const InvalidType := "Invalid type. Expected \"username\", \"gist\", or \"wakatime\"."

  datatype Access = Passed | Blocked(response: Response)

  predicate ValidKind(kind: string) {
    kind == "username" || kind == "gist" || kind == "wakatime"
  }

  /** Is `id` (possibly `undefined`) an element of `list`? */
  predicate Listed(list: seq<string>, id: Option<string>) {
    id.Some? && id.value in list
  }

  /** Gists are checked against `GIST_WHITELIST`, usernames and WakaTime users against `WHITELIST`. */
  function WhitelistFor(kind: string, env: Env, processEnv: Env): Option<seq<string>> {
    if kind == "gist" then GetGistWhitelist(env, processEnv) else GetWhitelist(env, processEnv)
  }

  /** The uncacheable error card of a refused id. */
  function Refusal(status: int, message: string): Response {
    Response(status, map["Content-Type" := "image/svg+xml", "Cache-Control" := "no-store"],
             ErrorCard(message, Some(DeployYourOwn), Some(false)))
  }

  /** `guardAccess({ id, type, colors, env })`; the legacy `res.send` branch is not modelled. */
  function GuardAccess(id: Option<string>, kind: string, env: Env, processEnv: Env, blacklist: seq<string>)
    : (r: Result<Access, string>)
    ensures r.Failure? <==> !ValidKind(kind)
    ensures r.Failure? ==> r.error == InvalidType
    ensures r.Success? ==>
              var whitelist := WhitelistFor(kind, env, processEnv);
              && (r.value == Blocked(Refusal(401, if kind == "gist" then NotWhitelistedGist else NotWhitelistedUsername))
                  <==> whitelist.Some? && !Listed(whitelist.value, id))
              && (r.value == Blocked(Refusal(403, BlacklistedUsername))
                  <==> kind == "username" && whitelist.None? && Listed(blacklist, id))
              && (r.value == Passed
                  <==> (whitelist.None? || Listed(whitelist.value, id))
                       && !(kind == "username" && whitelist.None? && Listed(blacklist, id)))
  {
    if !ValidKind(kind) then Failure(InvalidType)
    else
      var whitelist := WhitelistFor(kind, env, processEnv);
      var message := if kind == "gist" then NotWhitelistedGist else NotWhitelistedUsername;
      if whitelist.Some? && !Listed(whitelist.value, id) then Success(Blocked(Refusal(401, message)))
      else if kind == "username" && whitelist.None? && Listed(blacklist, id)
      then Success(Blocked(Refusal(403, BlacklistedUsername)))
      else Success(Passed)
  }

  /** A whitelisted id passes even when it is also blacklisted. */
  lemma WhitelistOverridesBlacklist(id: string, kind: string, env: Env, processEnv: Env, blacklist: seq<string>)
    requires ValidKind(kind)
    requires WhitelistFor(kind, env, processEnv).Some? && id in WhitelistFor(kind, env, processEnv).value
    ensures GuardAccess(Some(id), kind, env, processEnv, blacklist) == Success(Passed)
  {
  }

  /** Gist ids and WakaTime users are never refused as blacklisted, and every refusal is
      an uncacheable card without the repository link. */
  lemma RefusalShape(id: Option<string>, kind: string, env: Env, processEnv: Env, blacklist: seq<string>)
    requires ValidKind(kind)
    ensures match GuardAccess(id, kind, env, processEnv, blacklist)
            case Success(Blocked(response)) =>
              && (kind != "username" ==> response.status == 401)
              && response.headers["Cache-Control"] == "no-store"
              && response.body.ErrorCard? && response.body.showRepoLink == Some(false)
            case _ => true
  {
  }

  /** The handlers guard usernames, which never throws. */
  lemma UsernameGuardNeverThrows(id: Option<string>, env: Env, processEnv: Env, blacklist: seq<string>)
    ensures GuardAccess(id, "username", env, processEnv, blacklist).Success?
  {
  }
}
