/** The route table, the responses the server sends, and its two helper handlers:
    the catch-all 404 handler and the 500 error handler. */
module Routes {
  import opened Js
  import opened Records

  /** What a handler sends: plain text or one of the JSON bodies. */
  datatype Body =
    | Text(text: string)
    | LocationJson(location: LocationRecord)
    | TrailsJson(trails: seq<TrailRecord>)

  datatype Response = Response(status: int, body: Body)

  /** The method of a request that reaches the application. `OtherMethod` stands for every
      method Node's HTTP server hands to the application other than GET, HEAD and OPTIONS
      (POST, PUT, DELETE, PATCH, ...). CONNECT and methods Node does not know never reach it. */
  datatype Verb = Get | Head | Options | OtherMethod

  /** Who handles a request.
      - `CorsPreflight`: the `cors()` middleware, registered first, answers every OPTIONS
        request itself (status 204) before any route is tried.
      - `MisregisteredErrorHandler`: `errorHandler` is registered with `app.use` but takes three
        parameters, so the framework runs it as ordinary middleware, after the routes, for
        every request no GET route took. Called as `(request, response, next)`, it invokes
        `next.status(500)`, which is not a function; the resulting TypeError is answered by the
        framework's own final handler with status 500. */
  datatype Handler =
    | LocationRoute | WeatherRoute | TrailsRoute | NotFoundRoute
    | CorsPreflight | MisregisteredErrorHandler

  const NOT_FOUND_TEXT := "Error 404: URL Not found."
  const ERROR_PREFIX := "SORRY AN ERROR OCCURED "

  /** The live routes, in registration order. `/movies` and `/yelp` are commented out. */
  const LIVE_PATHS: seq<string> := ["/location", "/weather", "/trails"]

  /** A method the GET routes serve: the framework runs GET routes for HEAD requests too. */
  predicate ServedByGetRoutes(verb: Verb)
  {
    verb == Get || verb == Head
  }

  /** Routing of a request: OPTIONS stops at the CORS middleware; for GET and HEAD the first
      registered route whose path matches wins and the `*` route catches the rest; any other
      method falls through the routes to `app.use(errorHandler)`. */
  function Route(verb: Verb, path: string): (h: Handler)
    ensures h == CorsPreflight <==> verb == Options
    ensures h == MisregisteredErrorHandler <==> verb == OtherMethod
    ensures h == NotFoundRoute <==> ServedByGetRoutes(verb) && path !in LIVE_PATHS
    ensures h == LocationRoute ==> ServedByGetRoutes(verb) && path == LIVE_PATHS[0]
    ensures h == WeatherRoute ==> ServedByGetRoutes(verb) && path == LIVE_PATHS[1]
    ensures h == TrailsRoute ==> ServedByGetRoutes(verb) && path == LIVE_PATHS[2]
  {
    if verb == Options then CorsPreflight
    else if verb == OtherMethod then MisregisteredErrorHandler
    else if path == "/location" then LocationRoute
    else if path == "/weather" then WeatherRoute
    else if path == "/trails" then TrailsRoute
    else NotFoundRoute
  }

  /** `notFoundHandler`: status 404 and a fixed text. */
  function NotFound(): (r: Response)
    ensures r.status == 404 && r.body == Text(NOT_FOUND_TEXT)
  {
    Response(404, Text(NOT_FOUND_TEXT))
  }

  /** `errorHandler` called by a handler's `.catch`: status 500 and the error's string form
      appended to a fixed prefix. */
  function ErrorResponse(f: Failure): (r: Response)
    ensures r.status == 500 && r.body.Text?
    ensures ERROR_PREFIX <= r.body.text && r.body.text[|ERROR_PREFIX|..] == FailureText(f)
  {
    Response(500, Text(ERROR_PREFIX + FailureText(f)))
  }

  /** Every live path reaches its own handler, and no two live paths share one. */
  lemma LivePathsRouted(i: nat, j: nat)
    requires i < |LIVE_PATHS| && j < |LIVE_PATHS|
    ensures Route(Get, LIVE_PATHS[i]) != NotFoundRoute
    ensures Route(Get, LIVE_PATHS[i]) == Route(Get, LIVE_PATHS[j]) ==> i == j
  {
  }

  /** Any GET outside the live routes goes to the 404 handler. */
  lemma UnknownPathNotFound(path: string)
    requires path !in LIVE_PATHS
    ensures Route(Get, path) == NotFoundRoute
  {
  }

  /** The commented-out `/movies` and `/yelp` routes are not live: GETs on them get the 404. */
  lemma MoviesAndYelpNotFound()
    ensures Route(Get, "/movies") == NotFoundRoute && Route(Get, "/yelp") == NotFoundRoute
  {
  }

  /** No request other than OPTIONS escapes the route table: once past the CORS middleware,
      a request either has a GET route or reaches the misregistered error handler. */
  lemma NonGetFallsToErrorMiddleware(path: string)
    ensures Route(OtherMethod, path) == MisregisteredErrorHandler
    ensures Route(Head, path) == Route(Get, path)
  {
  }
}
