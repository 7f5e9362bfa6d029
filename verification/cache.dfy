/** Cache lifetimes and cache headers (src/common/cache.js). */
module Cache {
  import opened Wrappers
  import opened Strings
  import opened JsNumber
  import opened Envs
  import opened Http

  // ---------------------------------------------------------------------------
  // Durations in seconds (`DURATIONS`)

  const Minute := 60
  const Hour := 60 * Minute
  const Day := 24 * Hour

  const OneMinute := Minute
  const FiveMinutes := 5 * Minute
  const TenMinutes := 10 * Minute
  const FifteenMinutes := 15 * Minute
  const ThirtyMinutes := 30 * Minute
  const TwoHours := 2 * Hour
  const FourHours := 4 * Hour
  const SixHours := 6 * Hour
  const EightHours := 8 * Hour
  const TwelveHours := 12 * Hour
  const OneDay := Day
  const TwoDays := 2 * Day
  const SixDays := 6 * Day
  const TenDays := 10 * Day

  // ---------------------------------------------------------------------------
  // Per-card lifetimes (`CACHE_TTL`)

  /** A card's default lifetime and the range a requested lifetime is clamped to. */
  datatype Ttl = Ttl(def: int, min: int, max: int)

  datatype Card = StatsCard | TopLangsCard | PinCard | GistCard | WakatimeCard

  function CardTtl(card: Card): (t: Ttl)
    ensures 0 < t.min <= t.def <= t.max
    ensures TwelveHours <= t.min && t.max <= TenDays
  {
    match card
    case StatsCard => Ttl(OneDay, TwelveHours, TwoDays)
    case TopLangsCard => Ttl(SixDays, TwoDays, TenDays)
    case PinCard => Ttl(TenDays, OneDay, TenDays)
    case GistCard => Ttl(TwoDays, OneDay, TenDays)
    case WakatimeCard => Ttl(OneDay, TwelveHours, TwoDays)
  }

  /** `CACHE_TTL.ERROR`: the lifetime of an error card. */
  const ErrorTtl := TenMinutes

  // ---------------------------------------------------------------------------
  // Lifetime resolution

  /** `clampValue(n, min, max)` on a number: `Math.max(min, Math.min(n, max))`. */
  function Clamp(n: int, lo: int, hi: int): (r: int)
    ensures lo <= hi ==> lo <= r <= hi
    ensures lo <= n <= hi ==> r == n
    ensures n <= lo ==> r == lo
    ensures lo <= hi <= n ==> r == hi
  {
    var capped := if n < hi then n else hi;
    if lo < capped then capped else lo
  }

  /** The `CACHE_SECONDS` override: its `parseInt` when the binding is truthy, NaN otherwise. */
  function CacheSecondsOverride(env: Env): Option<int> {
    if Truthy(env, "CACHE_SECONDS") then ParseInt(env["CACHE_SECONDS"]) else None
  }

  /** `resolveCacheSeconds({ requested, def, min, max }, env)`; `requested` is `None` for NaN. */
  function ResolveCacheSeconds(requested: Option<int>, ttl: Ttl, env: Env, processEnv: Env): (r: int)
    // A parseable CACHE_SECONDS wins and is not clamped.
    ensures var o := CacheSecondsOverride(ResolveEnv(env, processEnv));
            o.Some? ==> r == o.value
    // Otherwise the requested lifetime (or the default for NaN) is clamped into [min, max].
    ensures var o := CacheSecondsOverride(ResolveEnv(env, processEnv));
            o.None? && ttl.min <= ttl.max ==> ttl.min <= r <= ttl.max
    ensures var o := CacheSecondsOverride(ResolveEnv(env, processEnv));
            o.None? && requested.Some? && ttl.min <= requested.value <= ttl.max ==> r == requested.value
    ensures var o := CacheSecondsOverride(ResolveEnv(env, processEnv));
            o.None? && requested.Some? && requested.value <= ttl.min ==> r == ttl.min
    ensures var o := CacheSecondsOverride(ResolveEnv(env, processEnv));
            o.None? && requested.Some? && ttl.min <= ttl.max <= requested.value ==> r == ttl.max
    ensures var o := CacheSecondsOverride(ResolveEnv(env, processEnv));
            o.None? && requested.None? && ttl.min <= ttl.def <= ttl.max ==> r == ttl.def
  {
    var clamped := Clamp(requested.GetOr(ttl.def), ttl.min, ttl.max);
    match CacheSecondsOverride(ResolveEnv(env, processEnv))
    case Some(seconds) => seconds
    case None => clamped
  }

  /** A day is 86400 seconds, the `stale-while-revalidate` window of every caching header. */
  lemma DayInSeconds()
    ensures OneDay == 24 * 60 * 60 == 86400
    ensures TwelveHours < OneDay < TwoDays < SixDays < TenDays
  {
  }

  /** The stats card clamps an out-of-range `?cache_seconds=` to its range:
      200000 becomes two days, 0 and -10000 become twelve hours. */
  lemma StatsCardClampExamples(env: Env, processEnv: Env)
    requires CacheSecondsOverride(ResolveEnv(env, processEnv)).None?
    ensures ResolveCacheSeconds(Some(200000), CardTtl(StatsCard), env, processEnv) == 2 * 86400
    ensures ResolveCacheSeconds(Some(0), CardTtl(StatsCard), env, processEnv) == 12 * 3600
    ensures ResolveCacheSeconds(Some(-10000), CardTtl(StatsCard), env, processEnv) == 12 * 3600
  {
  }

  /** Any integer written into `CACHE_SECONDS` is used as it is, however far outside
      the card's range: `CACHE_SECONDS=10000` caches a stats card for 10000 seconds. */
  lemma OverrideNotClamped(requested: Option<int>, ttl: Ttl, n: int, processEnv: Env)
    ensures ResolveCacheSeconds(requested, ttl, map["CACHE_SECONDS" := IntToString(n)], processEnv) == n
  {
    var env := map["CACHE_SECONDS" := IntToString(n)];
    assert IntToString(n) + "" == IntToString(n);
    ParseIntOfIntToString(n, "");
    assert |IntToString(n)| > 0;
    assert CacheSecondsOverride(ResolveEnv(env, processEnv)) == Some(n);
  }

  // ---------------------------------------------------------------------------
  // Cache headers

  const NoCacheControl := "no-cache, no-store, must-revalidate, max-age=0, s-maxage=0"

  /** The headers that switch caching off. */
  const NoCacheHeaders: Headers :=
    map["Cache-Control" := NoCacheControl, "Pragma" := "no-cache", "Expires" := "0"]

  /** One Cache-Control directive with a numeric argument, `name=value`. */
  function Directive(name: string, value: int): string {
    name + "=" + IntToString(value)
  }

  /** `max-age=N, s-maxage=N, stale-while-revalidate=86400`. */
  function CacheControlFor(seconds: int): string {
    Directive("max-age", seconds) + ", " + Directive("s-maxage", seconds)
    + ", " + Directive("stale-while-revalidate", OneDay)
  }

  predicate IsDevelopment(env: Env) {
    Lookup(env, "NODE_ENV") == Some("development")
  }

  /** A caching header for `seconds`: only `Cache-Control`, whose value is exactly the
      directives max-age and s-maxage of `seconds` and stale-while-revalidate of one day, in
      that order and nothing else, so a cache reads those three lifetimes back. */
  predicate CachingFor(h: Headers, seconds: int) {
    && h.Keys == {"Cache-Control"}
    && Split(h["Cache-Control"], ',') ==
         [Directive("max-age", seconds), " " + Directive("s-maxage", seconds),
          " " + Directive("stale-while-revalidate", OneDay)]
    && DirectiveValue(h["Cache-Control"], "max-age") == Some(seconds)
    && DirectiveValue(h["Cache-Control"], "s-maxage") == Some(seconds)
    && DirectiveValue(h["Cache-Control"], "stale-while-revalidate") == Some(OneDay)
  }

  /** The header built for `seconds` is a caching header, and not the no-cache one. */
  lemma CachingHeaderFor(seconds: int)
    ensures CachingFor(map["Cache-Control" := CacheControlFor(seconds)], seconds)
    ensures map["Cache-Control" := CacheControlFor(seconds)] != NoCacheHeaders
  {
    CacheControlReadBack(seconds);
    SplitCacheControl(seconds);
    assert "Pragma" in NoCacheHeaders;
  }

  /** `getCacheHeaders(cacheSeconds, env)`. */
  function GetCacheHeaders(seconds: int, env: Env, processEnv: Env): (h: Headers)
    ensures h == NoCacheHeaders <==> seconds < 1 || IsDevelopment(ResolveEnv(env, processEnv))
    ensures h != NoCacheHeaders ==> CachingFor(h, seconds)
  {
    if seconds < 1 || IsDevelopment(ResolveEnv(env, processEnv)) then NoCacheHeaders
    else
      CachingHeaderFor(seconds);
      map["Cache-Control" := CacheControlFor(seconds)]
  }

  /** `getErrorCacheHeaders(env)`: caching off when CACHE_SECONDS parses to less than 1 or in
      development, otherwise the fixed error lifetime. */
  function GetErrorCacheHeaders(env: Env, processEnv: Env): (h: Headers)
    ensures var o := CacheSecondsOverride(ResolveEnv(env, processEnv));
            h == NoCacheHeaders <==> (o.Some? && o.value < 1) || IsDevelopment(ResolveEnv(env, processEnv))
    ensures h != NoCacheHeaders ==> CachingFor(h, ErrorTtl)
  {
    var resolved := ResolveEnv(env, processEnv);
    var o := CacheSecondsOverride(resolved);
    if (o.Some? && o.value < 1) || IsDevelopment(resolved) then NoCacheHeaders
    else
      CachingHeaderFor(ErrorTtl);
      map["Cache-Control" := CacheControlFor(ErrorTtl)]
  }

  // ---------------------------------------------------------------------------
  // Reading a Cache-Control value back, as a cache does

  /** `s` without its leading spaces. */
  function TrimSpaces(s: string): (r: string)
    ensures |r| > 0 ==> r[0] != ' '
    decreases |s|
  {
    if |s| > 0 && s[0] == ' ' then TrimSpaces(s[1..]) else s
  }

  /** The numeric argument of the first directive called `name` in a list of directives. */
  function FindDirective(directives: seq<string>, name: string): Option<int>
    decreases |directives|
  {
    if |directives| == 0 then None
    else
      var d := TrimSpaces(directives[0]);
      if HasPrefix(d, name + "=") then ParseInt(d[|name| + 1..])
      else FindDirective(directives[1..], name)
  }

  /** The value a cache reads for directive `name` of a comma-separated Cache-Control value. */
  function DirectiveValue(value: string, name: string): Option<int> {
    FindDirective(Split(value, ','), name)
  }

  lemma NoCommaInIntToString(n: int)
    ensures ',' !in IntToString(n)
  {
    var m: nat := if n < 0 then -n else n;
    var d := NatToString(m);
    assert forall i :: 0 <= i < |d| ==> IsDigit(d[i]);
    if n < 0 {
      assert IntToString(n) == "-" + d;
    }
  }

  /** Three comma-free pieces joined by commas split back into themselves. */
  lemma SplitThree(a: string, b: string, c: string)
    requires ',' !in a && ',' !in b && ',' !in c
    ensures Split(a + [','] + b + [','] + c, ',') == [a, b, c]
  {
    var pieces := [a, b, c];
    assert pieces[1..] == [b, c] && pieces[1..][1..] == [c];
    assert Join([b, c], ',') == b + [','] + c;
    assert Join(pieces, ',') == a + [','] + (b + [','] + c);
    assert a + [','] + b + [','] + c == a + [','] + (b + [','] + c);
    assert forall i :: 0 <= i < |pieces| ==> ',' !in pieces[i];
    SplitJoin(pieces, ',');
  }

  lemma NoCommaInDirective(name: string, n: int)
    requires ',' !in name
    ensures ',' !in Directive(name, n) && ',' !in " " + Directive(name, n)
  {
    NoCommaInIntToString(n);
  }

  /** The caching header is its three directives joined by `", "`. */
  lemma CacheControlShape(seconds: int)
    ensures CacheControlFor(seconds) ==
            Directive("max-age", seconds) + [','] + (" " + Directive("s-maxage", seconds))
            + [','] + (" " + Directive("stale-while-revalidate", OneDay))
  {
    assert ", " == [','] + " ";
  }

  /** The three directives of a caching header, as the comma split sees them. */
  lemma SplitCacheControl(seconds: int)
    ensures Split(CacheControlFor(seconds), ',') ==
            [Directive("max-age", seconds), " " + Directive("s-maxage", seconds),
             " " + Directive("stale-while-revalidate", OneDay)]
  {
    NoCommaInDirective("max-age", seconds);
    NoCommaInDirective("s-maxage", seconds);
    NoCommaInDirective("stale-while-revalidate", OneDay);
    CacheControlShape(seconds);
    SplitThree(Directive("max-age", seconds), " " + Directive("s-maxage", seconds),
               " " + Directive("stale-while-revalidate", OneDay));
  }

  /** A directive, possibly after spaces, is found by its name and read back as its argument. */
  lemma ReadDirective(name: string, n: int, spaced: bool)
    requires |name| > 0 && name[0] != ' '
    ensures var d := Directive(name, n);
            && TrimSpaces(if spaced then " " + d else d) == d
            && HasPrefix(d, name + "=")
            && ParseInt(d[|name| + 1..]) == Some(n)
  {
    var d := Directive(name, n);
    assert d[0] == name[0];
    assert (" " + d)[1..] == d;
    assert d[..|name| + 1] == name + "=";
    assert d[|name| + 1..] == IntToString(n) + "";
    ParseIntOfIntToString(n, "");
  }

  /** A cache reads back the lifetimes the header was built from. */
  lemma CacheControlReadBack(seconds: int)
    ensures DirectiveValue(CacheControlFor(seconds), "max-age") == Some(seconds)
    ensures DirectiveValue(CacheControlFor(seconds), "s-maxage") == Some(seconds)
    ensures DirectiveValue(CacheControlFor(seconds), "stale-while-revalidate") == Some(OneDay)
  {
    SplitCacheControl(seconds);
    ReadBackFromPieces(CacheControlFor(seconds), "max-age", "s-maxage", "stale-while-revalidate", seconds, OneDay);
  }

  /** Three directives whose names differ in their first two characters are each found
      under their own name. */
  lemma ReadBackFromPieces(v: string, n1: string, n2: string, n3: string, x: int, y: int)
    requires |n1| > 1 && |n2| > 1 && |n3| > 1
    requires n1[0] != ' ' && n2[0] != ' ' && n3[0] != ' '
    requires n1[0] != n2[0] && n1[0] != n3[0] && n2[1] != n3[1]
    requires Split(v, ',') == [Directive(n1, x), " " + Directive(n2, x), " " + Directive(n3, y)]
    ensures DirectiveValue(v, n1) == Some(x)
    ensures DirectiveValue(v, n2) == Some(x)
    ensures DirectiveValue(v, n3) == Some(y)
  {
    var a := Directive(n1, x);
    var b := Directive(n2, x);
    var c := Directive(n3, y);
    DirectiveStart(n1, x);
    DirectiveStart(n2, x);
    ReadFirst(a, " " + b, " " + c, n1, x);
    ReadSecond(a, b, " " + c, n2, x);
    ReadThird(a, b, n3, y);
  }

  lemma ReadFirst(a: string, y: string, z: string, name: string, value: int)
    requires |name| > 0 && name[0] != ' ' && a == Directive(name, value)
    ensures FindDirective([a, y, z], name) == Some(value)
  {
    FindInThree(a, y, z, name);
    ReadDirective(name, value, false);
  }

  lemma ReadSecond(a: string, b: string, z: string, name: string, value: int)
    requires |a| > 1 && a[0] != ' ' && |name| > 1 && name[0] != ' ' && a[0] != name[0]
    requires b == Directive(name, value)
    ensures FindDirective([a, " " + b, z], name) == Some(value)
  {
    FindInThree(a, " " + b, z, name);
    ReadDirective(name, value, true);
    assert TrimSpaces(a) == a;
    SkipDirective(a, name);
  }

  lemma ReadThird(a: string, b: string, name: string, value: int)
    requires |a| > 1 && a[0] != ' ' && |b| > 1 && b[0] != ' '
    requires |name| > 1 && name[0] != ' ' && a[0] != name[0] && b[1] != name[1]
    ensures FindDirective([a, " " + b, " " + Directive(name, value)], name) == Some(value)
  {
    var c := Directive(name, value);
    FindInThree(a, " " + b, " " + c, name);
    ReadDirective(name, value, true);
    assert TrimSpaces(a) == a;
    assert TrimSpaces(" " + b) == b by { assert (" " + b)[1..] == b; }
    SkipDirective(a, name);
    SkipDirective(b, name);
    assert [" " + c][1..] == [];
  }

  lemma DirectiveStart(name: string, value: int)
    requires |name| > 1
    ensures |Directive(name, value)| > 1
    ensures Directive(name, value)[0] == name[0] && Directive(name, value)[1] == name[1]
  {
  }

  /** How `FindDirective` walks a list of three directives. */
  lemma FindInThree(x: string, y: string, z: string, name: string)
    ensures FindDirective([x, y, z], name) ==
            if HasPrefix(TrimSpaces(x), name + "=") then ParseInt(TrimSpaces(x)[|name| + 1..])
            else if HasPrefix(TrimSpaces(y), name + "=") then ParseInt(TrimSpaces(y)[|name| + 1..])
            else FindDirective([z], name)
  {
    assert [x, y, z][1..] == [y, z] && [y, z][1..] == [z];
  }

  lemma SkipDirective(d: string, name: string)
    requires |d| > 1 && |name| > 1 && (d[0] != name[0] || d[1] != name[1])
    ensures !HasPrefix(d, name + "=")
  {
  }
}
