/** Environment bindings and the comma-separated lists read from them (src/common/envs.js). */
module Envs {
  import opened Wrappers
  import opened Strings

  /** Environment bindings: a worker's `env` object or Node's `process.env`. */
  type Env = map<string, string>

  /** Every reader falls back to the process environment when it is handed an empty
      `env` object; the process environment is an explicit second map here. */
  function ResolveEnv(env: Env, processEnv: Env): Env {
    if |env| > 0 then env else processEnv
  }

  /** `env[key]`, `undefined` when the key is unbound. */
  function Lookup(env: Env, key: string): Option<string> {
    if key in env then Some(env[key]) else None
  }

  /** Is `env[key]` truthy? Binding values are strings, so only a missing or empty one is falsy. */
  predicate Truthy(env: Env, key: string) {
    key in env && env[key] != ""
  }

  /** A truthy binding split on commas; `None` when the binding is missing or empty. */
  function SplitBinding(env: Env, key: string): (r: Option<seq<string>>)
    ensures r.None? <==> !Truthy(env, key)
    ensures r.Some? ==> Join(r.value, ',') == env[key]
    ensures r.Some? ==> forall i :: 0 <= i < |r.value| ==> ',' !in r.value[i]
  {
    if Truthy(env, key) then Some(Split(env[key], ',')) else None
  }

  /** `getWhitelist`: the comma-split `WHITELIST`, or `undefined` when it is unset or empty. */
  function GetWhitelist(env: Env, processEnv: Env): (r: Option<seq<string>>)
    ensures r.None? <==> !Truthy(ResolveEnv(env, processEnv), "WHITELIST")
    ensures r.Some? ==> Join(r.value, ',') == ResolveEnv(env, processEnv)["WHITELIST"]
    ensures r.Some? ==> forall i :: 0 <= i < |r.value| ==> ',' !in r.value[i]
  {
    SplitBinding(ResolveEnv(env, processEnv), "WHITELIST")
  }

  /** `getGistWhitelist`: the same reading of `GIST_WHITELIST`. */
  function GetGistWhitelist(env: Env, processEnv: Env): (r: Option<seq<string>>)
    ensures r.None? <==> !Truthy(ResolveEnv(env, processEnv), "GIST_WHITELIST")
    ensures r.Some? ==> Join(r.value, ',') == ResolveEnv(env, processEnv)["GIST_WHITELIST"]
    ensures r.Some? ==> forall i :: 0 <= i < |r.value| ==> ',' !in r.value[i]
  {
    SplitBinding(ResolveEnv(env, processEnv), "GIST_WHITELIST")
  }

  /** `getExcludeRepositories`: the comma-split `EXCLUDE_REPO`, and the empty list (never
      `undefined`) when it is unset or empty. */
  function GetExcludeRepositories(env: Env, processEnv: Env): (r: seq<string>)
    ensures !Truthy(ResolveEnv(env, processEnv), "EXCLUDE_REPO") ==> r == []
    ensures Truthy(ResolveEnv(env, processEnv), "EXCLUDE_REPO") ==>
              |r| > 0 && Join(r, ',') == ResolveEnv(env, processEnv)["EXCLUDE_REPO"]
    ensures forall i :: 0 <= i < |r| ==> ',' !in r[i]
  {
    SplitBinding(ResolveEnv(env, processEnv), "EXCLUDE_REPO").GetOr([])
  }

  /** A list written as comma-separated names is read back name for name. */
  lemma WhitelistRoundTrip(names: seq<string>, env: Env, processEnv: Env)
    requires |names| > 0 && Join(names, ',') != ""
    requires forall i :: 0 <= i < |names| ==> ',' !in names[i]
    requires "WHITELIST" in ResolveEnv(env, processEnv)
    requires ResolveEnv(env, processEnv)["WHITELIST"] == Join(names, ',')
    ensures GetWhitelist(env, processEnv) == Some(names)
  {
    SplitJoin(names, ',');
  }

  /** Handing a reader an empty `env` reads exactly what passing the (non-empty) process
      environment itself would read, whatever fallback that call carries. */
  lemma EmptyEnvReadsProcessEnv(processEnv: Env, other: Env)
    requires |processEnv| > 0
    ensures GetWhitelist(map[], processEnv) == GetWhitelist(processEnv, other)
    ensures GetGistWhitelist(map[], processEnv) == GetGistWhitelist(processEnv, other)
    ensures GetExcludeRepositories(map[], processEnv) == GetExcludeRepositories(processEnv, other)
  {
  }

  /** A non-empty `env` hides the process environment completely. */
  lemma NonEmptyEnvHidesProcessEnv(env: Env, processEnv: Env, other: Env)
    requires |env| > 0
    ensures GetWhitelist(env, processEnv) == GetWhitelist(env, other)
    ensures GetGistWhitelist(env, processEnv) == GetGistWhitelist(env, other)
    ensures GetExcludeRepositories(env, processEnv) == GetExcludeRepositories(env, other)
  {
  }
}
