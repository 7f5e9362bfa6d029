/** The credential-rotating retry engine (src/common/retryer.js).

    The fetcher is an oracle from a call (attempt index and token handed to it) to the
    outcome of that call: a resolved response or a thrown value. A run of the engine is
    its final result together with the calls it made, in order. Logging on rotation is
    not modelled. */
module Retryer {
  import opened Wrappers
  import opened Strings
  import opened JsNumber
  import opened Envs

  /** One entry of a GraphQL `errors` array. */
  datatype GraphQLError = GraphQLError(errorType: Option<string>, message: Option<string>)

  /** The parts of a response body (`data`) the engine looks at; `rest` stands for everything else. */
  datatype Payload = Payload(errors: Option<seq<GraphQLError>>, message: Option<string>, rest: string)

  /** A fetcher response; `data` is `None` when the body is not an object. */
  datatype Response = Response(data: Option<Payload>, status: Option<int>, rest: string)

  /** A value the fetcher threw: possibly an HTTP error carrying a status and a response. */
  datatype Thrown = Thrown(status: Option<int>, data: Option<Payload>, response: Option<Response>, rest: string)

  datatype Outcome = Resolved(response: Response) | Rejected(thrown: Thrown)

  /** The arguments the fetcher receives besides the request variables. */
  datatype Call = Call(attempt: nat, token: Option<string>)

  type Fetcher = Call -> Outcome

  datatype RetryError = NoTokens | MaxRetry | Rethrown(thrown: Thrown)

  /** What the engine's promise settles to: a response, a thrown value handed back as a
      value (an HTTP error without a response object), or a rejection. */
  datatype RetryResult = Returned(response: Response) | ReturnedThrown(thrown: Thrown) | Raised(error: RetryError)

  datatype Run = Run(result: RetryResult, calls: seq<Call>)

  /** How the engine reacts to one outcome: rotate to the next token, or settle. */
  datatype Verdict = RotateRateLimited | RotateBadCredential | Finish(result: RetryResult)

  const RateLimitedType := "RATE_LIMITED"
  const RateLimitPattern := "rate limit"
  const BadCredentials := "Bad credentials"
  const AccountSuspended := "Sorry. Your account was suspended."
  /** `NODE_ENV=test` replaces the token count by this fixed budget. */
  const TestRetries := 7

  const NoTokensMessage := "No GitHub API tokens found"
  const MaxRetryMessage := "Downtime due to GitHub API rate limiting"

  /** The message of the `CustomError` the engine throws itself; a rethrown value is not one. */
  function ErrorMessage(e: RetryError): Option<string> {
    match e
    case NoTokens => Some(NoTokensMessage)
    case MaxRetry => Some(MaxRetryMessage)
    case Rethrown(_) => None
  }

  // ---------------------------------------------------------------------------
  // Token budget

  /** The environment key of the `k`-th token (1-based). */
  function PatKey(k: nat): string {
    "PAT_" + NatToString(k)
  }

  lemma PatKeyInjective(a: nat, b: nat)
    requires PatKey(a) == PatKey(b)
    ensures a == b
  {
    assert PatKey(a)[4..] == NatToString(a);
    assert PatKey(b)[4..] == NatToString(b);
    NatToStringInjective(a, b);
  }

  /** The keys `PAT_1 … PAT_n`. */
  function PatKeys(n: nat): (keys: set<string>)
    ensures forall k :: 1 <= k <= n ==> PatKey(k) in keys
    ensures forall key :: key in keys ==> exists k :: 1 <= k <= n && key == PatKey(k)
  {
    if n == 0 then {} else PatKeys(n - 1) + {PatKey(n)}
  }

  lemma {:induction false} PatKeysSize(n: nat)
    ensures |PatKeys(n)| == n
  {
    if n > 0 {
      PatKeysSize(n - 1);
      if PatKey(n) in PatKeys(n - 1) {
        var k :| 1 <= k <= n - 1 && PatKey(n) == PatKey(k);
        PatKeyInjective(n, k);
      }
    }
  }

  /** A run of `n` bound tokens needs `n` distinct keys, so it is never longer than the environment. */
  lemma PatRunBound(env: Env, n: nat)
    requires forall k :: 1 <= k <= n ==> Truthy(env, PatKey(k))
    ensures n <= |env|
  {
    PatKeysSize(n);
    SubsetSize(PatKeys(n), env.Keys);
  }

  lemma {:induction false} SubsetSize<T>(a: set<T>, b: set<T>)
    requires a <= b
    ensures |a| <= |b|
    decreases a
  {
    if a != {} {
      var x :| x in a;
      SubsetSize(a - {x}, b - {x});
    }
  }

  /** The `while (env[`PAT_${PATs + 1}`]) PATs++` count, continued from `i` bound tokens. */
  function CountFrom(env: Env, i: nat): (n: nat)
    requires forall k :: 1 <= k <= i ==> Truthy(env, PatKey(k))
    ensures i <= n
    ensures forall k :: 1 <= k <= n ==> Truthy(env, PatKey(k))
    ensures !Truthy(env, PatKey(n + 1))
    decreases |env| - i
  {
    if Truthy(env, PatKey(i + 1)) then
      PatRunBound(env, i + 1);
      CountFrom(env, i + 1)
    else i
  }

  /** The number of tokens: the length of the unbroken run of truthy `PAT_1, PAT_2, …`. */
  function TokenCount(env: Env): (n: nat)
    ensures forall k :: 1 <= k <= n ==> Truthy(env, PatKey(k))
    ensures !Truthy(env, PatKey(n + 1))
  {
    CountFrom(env, 0)
  }

  /** The run length is determined by the environment: any `n` with the run property is the count. */
  lemma TokenCountUnique(env: Env, n: nat)
    requires forall k :: 1 <= k <= n ==> Truthy(env, PatKey(k))
    requires !Truthy(env, PatKey(n + 1))
    ensures TokenCount(env) == n
  {
  }

  predicate TestMode(env: Env) {
    Lookup(env, "NODE_ENV") == Some("test")
  }

  /** `RETRIES`: 7 in test mode, otherwise the token count. */
  function Budget(env: Env): (r: nat)
    ensures TestMode(env) ==> r == TestRetries
    ensures !TestMode(env) ==>
              (forall k :: 1 <= k <= r ==> Truthy(env, PatKey(k))) && !Truthy(env, PatKey(r + 1))
  {
    if TestMode(env) then TestRetries else TokenCount(env)
  }

  // ---------------------------------------------------------------------------
  // Classification of one outcome

  /** `errors?.[0]`: only the first GraphQL error is ever examined. */
  function FirstError(data: Option<Payload>): Option<GraphQLError> {
    if data.Some? && data.value.errors.Some? && |data.value.errors.value| > 0
    then Some(data.value.errors.value[0])
    else None
  }

  /** `x?.message || ""`. */
  function MessageOr(m: Option<string>): string {
    m.GetOr("")
  }

  /** Typed or textual rate-limit signal in the first error of a response body. */
  predicate IsRateLimited(data: Option<Payload>) {
    var first := FirstError(data);
    (first.Some? && first.value.errorType == Some(RateLimitedType))
    || ContainsCaseless(if first.Some? then MessageOr(first.value.message) else "", RateLimitPattern)
  }

  predicate IsCredentialMessage(m: string) {
    m == BadCredentials || m == AccountSuspended
  }

  /** `data?.message` is one of the two messages of a rejected or suspended token. */
  predicate HasCredentialMessage(data: Option<Payload>) {
    data.Some? && IsCredentialMessage(MessageOr(data.value.message))
  }

  /** A thrown value's `status` is truthy: present and not 0. */
  predicate StatusTruthy(status: Option<int>) {
    status.Some? && status.value != 0
  }

  /** How the engine reacts to one outcome of the fetcher. */
  function Classify(o: Outcome): Verdict
  {
    match o
    case Resolved(response) =>
      if IsRateLimited(response.data) then RotateRateLimited
      else if HasCredentialMessage(response.data) then RotateBadCredential
      else Finish(Returned(response))
    case Rejected(e) =>
      if !StatusTruthy(e.status) && e.response.None? then Finish(Raised(Rethrown(e)))
      else if HasCredentialMessage(e.data) || (e.response.Some? && HasCredentialMessage(e.response.value.data))
      then RotateBadCredential
      else if e.response.Some? then Finish(Returned(e.response.value))
      else Finish(ReturnedThrown(e))
  }

  /** The classification rules, in terms of the fields the source reads. */
  lemma ClassifyRules(o: Outcome, v: Verdict)
    requires v == Classify(o)
    // A response is checked for rate limiting first, on its first error only.
    // It rotates for the rate limit exactly when that error is typed RATE_LIMITED or its
    // message mentions the rate limit.
    ensures v == RotateRateLimited <==>
              && o.Resolved? && FirstError(o.response.data).Some?
              && (|| FirstError(o.response.data).value.errorType == Some(RateLimitedType)
                  || ContainsCaseless(MessageOr(FirstError(o.response.data).value.message), RateLimitPattern))
    // Then for the credential messages, both on responses and on thrown values.
    ensures v == RotateBadCredential <==>
              || (o.Resolved? && !IsRateLimited(o.response.data) && HasCredentialMessage(o.response.data))
              || (o.Rejected? && (StatusTruthy(o.thrown.status) || o.thrown.response.Some?)
                  && (HasCredentialMessage(o.thrown.data)
                      || (o.thrown.response.Some? && HasCredentialMessage(o.thrown.response.value.data))))
    // A thrown value with neither status nor response is rethrown as it is.
    ensures v.Finish? && v.result.Raised? <==>
              o.Rejected? && !StatusTruthy(o.thrown.status) && o.thrown.response.None?
    ensures v.Finish? && v.result.Raised? ==> v.result.error == Rethrown(o.thrown)
    // Any other outcome settles to the response itself, the thrown value's response, or the thrown value.
    ensures v.Finish? && v.result.Returned? ==>
              o == Resolved(v.result.response) || (o.Rejected? && o.thrown.response == Some(v.result.response))
    ensures v.Finish? && v.result.ReturnedThrown? ==>
              o == Rejected(v.result.thrown) && o.thrown.response.None? && StatusTruthy(o.thrown.status)
  {
  }

  predicate Rotates(o: Outcome) {
    !Classify(o).Finish?
  }

  /** An error of any type whose message mentions the rate limit, in any letter case and at
      any position, counts as rate limited. */
  lemma MessageRateLimited(errorType: Option<string>, message: string, i: nat)
    requires CaselessAt(message, RateLimitPattern, i)
    ensures Classify(Resolved(Response(Some(Payload(Some([GraphQLError(errorType, Some(message))]), None, "")),
                                       None, ""))) == RotateRateLimited
  {
  }

  // ---------------------------------------------------------------------------
  // The engine

  /** The call made at attempt `a` when tokens are read from `tokenEnv`: token `PAT_{a+1}`. */
  function CallAt(tokenEnv: Env, a: nat): Call {
    Call(a, Lookup(tokenEnv, PatKey(a + 1)))
  }

  /** Call i of a run started at attempt `retries` is attempt `retries + i`, with its token. */
  predicate CallsFrom(calls: seq<Call>, tokenEnv: Env, retries: nat) {
    forall i :: 0 <= i < |calls| ==> calls[i] == CallAt(tokenEnv, retries + i)
  }

  /** Every call of a run but the last asked for a rotation. */
  predicate RotatedBeforeLast(fetcher: Fetcher, calls: seq<Call>) {
    forall i :: 0 <= i < |calls| - 1 ==> Rotates(fetcher(calls[i]))
  }

  /** How a run with a positive budget started at `retries <= budget` ends: after 1 to
      `budget + 1 - retries` calls, with the last call's settled result, or, when the last of
      the full `budget + 1 - retries` calls also rotated, with MaxRetry. */
  predicate Settled(fetcher: Fetcher, budget: nat, retries: nat, run: Run) {
    && 1 <= |run.calls| <= budget + 1 - retries
    && var last := Classify(fetcher(run.calls[|run.calls| - 1]));
       || (last.Finish? && run.result == last.result)
       || (!last.Finish? && |run.calls| == budget + 1 - retries && run.result == Raised(MaxRetry))
  }

  /** One invocation of `retryer` at attempt `retries`, for a budget `RETRIES` and with the
      map the token is read from as a parameter. Every recursive invocation of the source
      recomputes the same budget from the same environment; here it is computed once. */
  function Attempts(fetcher: Fetcher, budget: nat, tokenEnv: Env, retries: nat): (run: Run)
    ensures budget == 0 ==> run == Run(Raised(NoTokens), [])
    ensures budget > 0 && retries > budget ==> run == Run(Raised(MaxRetry), [])
    ensures budget > 0 && retries <= budget ==> Settled(fetcher, budget, retries, run)
    ensures CallsFrom(run.calls, tokenEnv, retries)
    ensures RotatedBeforeLast(fetcher, run.calls)
    decreases budget + 1 - retries
  {
    if budget == 0 then Run(Raised(NoTokens), [])
    else if retries > budget then Run(Raised(MaxRetry), [])
    else
      var call := CallAt(tokenEnv, retries);
      var verdict := Classify(fetcher(call));
      if verdict.Finish? then Run(verdict.result, [call])
      else
        var rest := Attempts(fetcher, budget, tokenEnv, retries + 1);
        ExtendRun(fetcher, budget, tokenEnv, retries, rest);
        Run(rest.result, [call] + rest.calls)
  }

  /** A rotation in front of the rest of a run keeps the run's shape. */
  lemma ExtendRun(fetcher: Fetcher, budget: nat, tokenEnv: Env, retries: nat, rest: Run)
    requires 0 < budget && retries <= budget
    requires Rotates(fetcher(CallAt(tokenEnv, retries)))
    requires retries + 1 > budget ==> rest == Run(Raised(MaxRetry), [])
    requires retries + 1 <= budget ==> Settled(fetcher, budget, retries + 1, rest)
    requires CallsFrom(rest.calls, tokenEnv, retries + 1)
    requires RotatedBeforeLast(fetcher, rest.calls)
    ensures var run := Run(rest.result, [CallAt(tokenEnv, retries)] + rest.calls);
            && Settled(fetcher, budget, retries, run)
            && CallsFrom(run.calls, tokenEnv, retries)
            && RotatedBeforeLast(fetcher, run.calls)
  {
    var call := CallAt(tokenEnv, retries);
    ExtendCalls(call, rest.calls, tokenEnv, retries);
    ExtendRotated(fetcher, call, rest.calls);
    if |rest.calls| == 0 {
      assert [call] + rest.calls == [call];
    } else {
      ExtendSettled(fetcher, budget, retries, call, rest);
    }
  }

  lemma ExtendCalls(call: Call, calls: seq<Call>, tokenEnv: Env, retries: nat)
    requires call == CallAt(tokenEnv, retries) && CallsFrom(calls, tokenEnv, retries + 1)
    ensures CallsFrom([call] + calls, tokenEnv, retries)
  {
    assert forall i :: 1 <= i < |[call] + calls| ==> ([call] + calls)[i] == calls[i - 1];
  }

  lemma ExtendRotated(fetcher: Fetcher, call: Call, calls: seq<Call>)
    requires Rotates(fetcher(call)) && RotatedBeforeLast(fetcher, calls)
    ensures RotatedBeforeLast(fetcher, [call] + calls)
  {
    assert forall i :: 1 <= i < |[call] + calls| ==> ([call] + calls)[i] == calls[i - 1];
  }

  lemma ExtendSettled(fetcher: Fetcher, budget: nat, retries: nat, call: Call, rest: Run)
    requires retries + 1 <= budget && Settled(fetcher, budget, retries + 1, rest)
    ensures Settled(fetcher, budget, retries, Run(rest.result, [call] + rest.calls))
  {
    var calls := [call] + rest.calls;
    assert calls[|calls| - 1] == rest.calls[|rest.calls| - 1];
  }

  /** `retryer(fetcher, variables, retries, env)` with tokens read from `tokenEnv`. */
  function RetryFrom(fetcher: Fetcher, env: Env, processEnv: Env, tokenEnv: Env, retries: nat): (run: Run)
    ensures forall i :: 0 <= i < |run.calls| ==>
              run.calls[i].token == Lookup(tokenEnv, PatKey(run.calls[i].attempt + 1))
  {
    var run := Attempts(fetcher, Budget(ResolveEnv(env, processEnv)), tokenEnv, retries);
    CallTokens(run.calls, tokenEnv, retries);
    run
  }

  /** The token of each call is the one its attempt index selects. */
  lemma CallTokens(calls: seq<Call>, tokenEnv: Env, retries: nat)
    requires CallsFrom(calls, tokenEnv, retries)
    ensures forall i :: 0 <= i < |calls| ==> calls[i].token == Lookup(tokenEnv, PatKey(calls[i].attempt + 1))
  {
  }

  /** The engine with tokens taken from the resolved environment, as the fallback to the
      process environment evidently intends. */
  function Retryer(fetcher: Fetcher, env: Env, processEnv: Env, retries: nat): (run: Run)
    ensures forall i :: 0 <= i < |run.calls| ==>
              run.calls[i].token == Lookup(ResolveEnv(env, processEnv), PatKey(run.calls[i].attempt + 1))
  {
    RetryFrom(fetcher, env, processEnv, ResolveEnv(env, processEnv), retries)
  }

  /** The engine exactly as written: tokens are looked up in the caller's `env`. */
  function RetryerAsWritten(fetcher: Fetcher, env: Env, processEnv: Env, retries: nat): (run: Run)
    ensures forall i :: 0 <= i < |run.calls| ==>
              run.calls[i].token == Lookup(env, PatKey(run.calls[i].attempt + 1))
  {
    RetryFrom(fetcher, env, processEnv, env, retries)
  }

  // ---------------------------------------------------------------------------
  // Properties of whole runs

  /** The run gives up with "Downtime due to GitHub API rate limiting" exactly when every
      attempt from `retries` to the budget asked for a rotation. */
  lemma MaxRetryIff(fetcher: Fetcher, budget: nat, tokenEnv: Env, retries: nat)
    requires 0 < budget && retries <= budget
    ensures Attempts(fetcher, budget, tokenEnv, retries).result == Raised(MaxRetry) <==>
            forall a :: retries <= a <= budget ==> Rotates(fetcher(CallAt(tokenEnv, a)))
  {
    var run := Attempts(fetcher, budget, tokenEnv, retries);
    var n := |run.calls|;
    if run.result == Raised(MaxRetry) {
      var last := Classify(fetcher(run.calls[n - 1]));
      assert !last.Finish?;
      forall a | retries <= a <= budget
        ensures Rotates(fetcher(CallAt(tokenEnv, a)))
      {
        assert run.calls[a - retries] == CallAt(tokenEnv, a);
      }
    }
    if forall a :: retries <= a <= budget ==> Rotates(fetcher(CallAt(tokenEnv, a))) {
      assert run.calls[n - 1] == CallAt(tokenEnv, retries + n - 1);
      assert Rotates(fetcher(CallAt(tokenEnv, retries + n - 1)));
    }
  }

  /** A fetcher that is always rate limited is called `RETRIES + 1` times, with attempt
      indices `0 … RETRIES` and token `PAT_{k+1}` at attempt `k`, and the run fails. */
  lemma AlwaysRateLimited(fetcher: Fetcher, env: Env, processEnv: Env)
    requires forall c :: Classify(fetcher(c)) == RotateRateLimited
    requires Budget(ResolveEnv(env, processEnv)) > 0
    ensures var run := Retryer(fetcher, env, processEnv, 0);
            && run.result == Raised(MaxRetry)
            && |run.calls| == Budget(ResolveEnv(env, processEnv)) + 1
            && forall k :: 0 <= k < |run.calls| ==>
                 run.calls[k] == Call(k, Lookup(ResolveEnv(env, processEnv), PatKey(k + 1)))
  {
    var budget := Budget(ResolveEnv(env, processEnv));
    MaxRetryIff(fetcher, budget, ResolveEnv(env, processEnv), 0);
  }

  /** The test-mode budget: an always rate-limited fetcher is called eight times. */
  lemma TestModeAlwaysRateLimited(fetcher: Fetcher)
    requires forall c :: Classify(fetcher(c)) == RotateRateLimited
    ensures var run := Retryer(fetcher, map["NODE_ENV" := "test"], map[], 0);
            run.result == Raised(MaxRetry) && |run.calls| == 8
  {
    assert Budget(map["NODE_ENV" := "test"]) == 7;
    AlwaysRateLimited(fetcher, map["NODE_ENV" := "test"], map[]);
  }

  /** With no token (and no test mode) the run fails before the fetcher is called. */
  lemma NoTokensNoCalls(fetcher: Fetcher, env: Env, processEnv: Env, retries: nat)
    requires !TestMode(ResolveEnv(env, processEnv)) && !Truthy(ResolveEnv(env, processEnv), PatKey(1))
    ensures Retryer(fetcher, env, processEnv, retries) == Run(Raised(NoTokens), [])
  {
    assert Budget(ResolveEnv(env, processEnv)) == 0;
  }

  /** An attempt that settles ends the run after one call, with that attempt's result:
      a first-try success is returned unchanged. */
  lemma SettlesAtOnce(fetcher: Fetcher, budget: nat, tokenEnv: Env, retries: nat)
    requires 0 < budget && retries <= budget
    requires Classify(fetcher(CallAt(tokenEnv, retries))).Finish?
    ensures Attempts(fetcher, budget, tokenEnv, retries)
            == Run(Classify(fetcher(CallAt(tokenEnv, retries))).result, [CallAt(tokenEnv, retries)])
  {
  }

  /** A success after one rotation: exactly two calls, and the second attempt's outcome is the result. */
  lemma RotateOnceThenSettle(fetcher: Fetcher, budget: nat, tokenEnv: Env, retries: nat)
    requires retries + 1 <= budget
    requires Rotates(fetcher(CallAt(tokenEnv, retries)))
    requires Classify(fetcher(CallAt(tokenEnv, retries + 1))).Finish?
    ensures var run := Attempts(fetcher, budget, tokenEnv, retries);
            && run.calls == [CallAt(tokenEnv, retries), CallAt(tokenEnv, retries + 1)]
            && run.result == Classify(fetcher(CallAt(tokenEnv, retries + 1))).result
  {
    var rest := Attempts(fetcher, budget, tokenEnv, retries + 1);
    assert rest.calls == [CallAt(tokenEnv, retries + 1)];
  }

  /** A thrown network failure (no status, no response) is rethrown after a single call. */
  lemma NetworkFailureRethrown(fetcher: Fetcher, budget: nat, tokenEnv: Env, retries: nat, e: Thrown)
    requires 0 < budget && retries <= budget
    requires fetcher(CallAt(tokenEnv, retries)) == Rejected(e)
    requires !StatusTruthy(e.status) && e.response.None?
    ensures Attempts(fetcher, budget, tokenEnv, retries) == Run(Raised(Rethrown(e)), [CallAt(tokenEnv, retries)])
  {
  }

  // ---------------------------------------------------------------------------
  // The token lookup of the source

  /** As written, a caller that relies on the process-environment fallback (an empty `env`)
      has its tokens counted in the process environment but is handed `undefined` tokens. */
  lemma AsWrittenDropsFallbackToken(fetcher: Fetcher)
    requires forall c :: !Rotates(fetcher(c))
    ensures RetryerAsWritten(fetcher, map[], map["PAT_1" := "t"], 0).calls == [Call(0, None)]
    ensures Retryer(fetcher, map[], map["PAT_1" := "t"], 0).calls == [Call(0, Some("t"))]
  {
    var processEnv := map["PAT_1" := "t"];
    assert PatKey(1) == "PAT_1";
    assert PatKey(2) != "PAT_1" by {
      assert PatKey(2)[4] == '2';
    }
    assert TokenCount(processEnv) == 1 by {
      TokenCountUnique(processEnv, 1);
    }
    assert Budget(ResolveEnv(map[], processEnv)) == 1;
  }

  /** The engine throws "No GitHub API tokens found" exactly when the budget is 0, and
      "Downtime due to GitHub API rate limiting" exactly when the budget is positive and every
      attempt from `retries` to the budget asked for a rotation (none when `retries` is past it). */
  lemma EngineErrorMessages(fetcher: Fetcher, budget: nat, tokenEnv: Env, retries: nat)
    ensures var result := Attempts(fetcher, budget, tokenEnv, retries).result;
            result.Raised? && ErrorMessage(result.error) == Some(NoTokensMessage) <==> budget == 0
    ensures var result := Attempts(fetcher, budget, tokenEnv, retries).result;
            result.Raised? && ErrorMessage(result.error) == Some(MaxRetryMessage) <==>
              budget > 0 && forall a :: retries <= a <= budget ==> Rotates(fetcher(CallAt(tokenEnv, a)))
  {
    var run := Attempts(fetcher, budget, tokenEnv, retries);
    if budget > 0 && retries <= budget {
      MaxRetryIff(fetcher, budget, tokenEnv, retries);
      var o := fetcher(run.calls[|run.calls| - 1]);
      ClassifyRules(o, Classify(o));
      assert NoTokensMessage != MaxRetryMessage;
    }
  }

  /** Whenever the caller passes a non-empty `env`, the source and the corrected engine make the same calls and settle alike. */
  lemma AsWrittenAgreesWithExplicitEnv(fetcher: Fetcher, env: Env, processEnv: Env, retries: nat)
    requires |env| > 0
    ensures RetryerAsWritten(fetcher, env, processEnv, retries) == Retryer(fetcher, env, processEnv, retries)
  {
  }
}
