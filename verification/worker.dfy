/** The Cloudflare Worker entry point (src/worker.js): path routing, the 404 fallback and
    the 500 wrapper around every handler. URL parsing is not modelled: the pathname is
    the input. */
module Worker {
  import opened Wrappers
  import opened Strings
  import opened Http

  datatype Route = Stats | TopLangs | Wakatime | Pin | Gist

  function RoutePath(r: Route): string {
    match r
    case Stats => "/api"
    case TopLangs => "/api/top-langs"
    case Wakatime => "/api/wakatime"
    case Pin => "/api/pin"
    case Gist => "/api/gist"
  }

  /** What a card handler did: answered, or threw a value whose `message` may be `undefined`. */
  datatype HandlerOutcome = Responded(response: Response) | Threw(message: Option<string>)

  /** The card handlers, one per route; their behaviour is a parameter here. */
  type Handlers = Route -> HandlerOutcome

  /** The route a pathname selects once one trailing slash is removed. */
  function RouteOf(pathname: string): (r: Option<Route>)
    ensures forall route :: r == Some(route) <==>
              pathname == RoutePath(route) || pathname == RoutePath(route) + "/"
  {
    var path := StripTrailingSlash(pathname);
    assert forall route :: path == RoutePath(route) <==>
             pathname == RoutePath(route) || pathname == RoutePath(route) + "/" by {
      forall route ensures path == RoutePath(route) <==>
                           pathname == RoutePath(route) || pathname == RoutePath(route) + "/" {
        RoutePathShape(route);
        if pathname == RoutePath(route) + "/" {
          StripAppendedSlash(RoutePath(route));
        }
      }
    }
    if path == "/api" then Some(Stats)
    else if path == "/api/top-langs" then Some(TopLangs)
    else if path == "/api/wakatime" then Some(Wakatime)
    else if path == "/api/pin" then Some(Pin)
    else if path == "/api/gist" then Some(Gist)
    else None
  }

  /** Route paths are non-empty and never end in a slash. */
  lemma RoutePathShape(r: Route)
    ensures |RoutePath(r)| > 0 && RoutePath(r)[|RoutePath(r)| - 1] != '/'
  {
  }

  const NotFound: Response := Response(404, JsonContentType, Json([("error", "Not Found")]))

  /** The 500 reply of the `fetch` wrapper; `JSON.stringify` drops an `undefined` message. */
  function InternalError(message: Option<string>): Response {
    Response(500, JsonContentType,
             Json([("error", "Internal Server Error")] + if message.Some? then [("message", message.value)] else []))
  }

  /** `fetch(request, env, ctx)`: `handleRequest` inside the wrapper's `try`. */
  function Fetch(pathname: string, handlers: Handlers): (r: Response)
    ensures RouteOf(pathname).None? ==> r == NotFound
    ensures RouteOf(pathname).Some? ==>
              match handlers(RouteOf(pathname).value)
              case Responded(response) => r == response
              case Threw(message) =>
                && r.status == 500 && r.headers == JsonContentType
                && r.body.Json? && |r.body.members| > 0
                && r.body.members[0] == ("error", "Internal Server Error")
                && (message.Some? <==> |r.body.members| == 2)
                && (message.Some? ==> r.body.members[1] == ("message", message.value))
  {
    match RouteOf(pathname)
    case None => NotFound
    case Some(route) =>
      match handlers(route)
      case Responded(response) => response
      case Threw(message) => InternalError(message)
  }

  /** Each route path, with or without one trailing slash, reaches its own handler;
      with two trailing slashes it reaches none. */
  lemma OneTrailingSlash(r: Route)
    ensures RouteOf(RoutePath(r)) == Some(r)
    ensures RouteOf(RoutePath(r) + "/") == Some(r)
    ensures RouteOf(RoutePath(r) + "//") == None
  {
    var doubled := RoutePath(r) + "//";
    forall route ensures doubled != RoutePath(route) && doubled != RoutePath(route) + "/" {
      RoutePathShape(route);
      assert doubled[|doubled| - 1] == '/' && doubled[|doubled| - 2] == '/';
    }
  }

  /** Distinct routes have distinct paths, so every handler is reachable on its own. */
  lemma RoutePathInjective(r1: Route, r2: Route)
    requires RoutePath(r1) == RoutePath(r2)
    ensures r1 == r2
  {
  }

  /** The 404 reply is produced exactly for unrouted paths, whatever the handlers do,
      provided no handler itself answers with it. */
  lemma NotFoundIffUnrouted(pathname: string, handlers: Handlers)
    requires forall route :: handlers(route) != Responded(NotFound)
    ensures Fetch(pathname, handlers) == NotFound <==> RouteOf(pathname).None?
  {
  }
}
