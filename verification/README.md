# Location, weather and trails server — Dafny model

The server answers three GET routes. `/location?city=…` asks a geocoder for the city. It
answers with a location record built from the first result. It also records the
coordinates in process-wide state. `/weather` asks a weather provider. `/trails` asks a
trail provider about the coordinates in that state and answers with renamed trail
records. Every other GET is answered with a fixed 404 text. A rejected provider request
is answered by the error handler with status 500.

This project models the part of `server.js` that has logic:

- the three module variables `latitude`, `longitude` and `coordArray`. They are the
  fields of the class `Handoff.ServerState`. A ghost field `resolutions` lists every
  successful resolution in order. `Valid()` ties the real fields to it;
- the location handler's continuation (`ServerState.LocationHandler`) and the trails
  handler's read of `coordArray[0]` and `coordArray[1]` (`ServerState.TrailsCoordinates`,
  `ServerState.TrailsHandler`). Each provider call is replaced by its outcome, passed as
  input: `Ok(decoded body)`, or `Err(text)` with the error's string form when the request was rejected. Each
  continuation runs as one atomic step;
- the record builders `Location` and `Trail` (`Records`), including a model of
  JavaScript's `String.prototype.split` on one character, and its inverse `Join`;
- the route table, the 404 handler and the 500 error handler (`Routes`).

JavaScript's `undefined` is `Js.Option.None`. An error thrown inside a continuation is a
`Js.Failure` value. The error handler receives it.

The key property is in `ServerState.TrailsCoordinates` and `Handoff.FirstResolutionPinned`.
The trails handler always asks about the **first** location the process ever resolved.
The globals `latitude` and `longitude` hold the **latest** one.
`Handoff.SecondLocationIgnoredByTrails` shows this with two resolutions in a row.

The server has no cache-or-fetch logic. It never reads the `locations` table before calling
the geocoder. The only `select` runs once at startup (server.js:126). Every location request
calls the geocoder and attempts an INSERT. So the model has no cache-hit path.

## Model

| member | source | states |
|---|---|---|
| Records.Split | server.js:115-116 | `split(' ')` yields at least one token; no token contains the separator; joining the tokens with the separator gives back the input |
| Records.SplitNoSeparator | server.js:115-116 | a string without the separator splits into itself alone |
| Records.SplitAtFirstSeparator | server.js:115-116 | the first token is everything before the first separator; the rest is the split of what follows it |
| Records.SplitJoin | server.js:115-116 | splitting the join of separator-free tokens gives those tokens back, so `Split` is the only such decomposition |
| Records.LeadingTokens | server.js:115-116 | with two or more tokens, the input starts with token 0, a separator, token 1, then ends or has another separator |
| Records.Location | server.js:96-101 | fails with the "first result missing" error exactly when the geocoder list is empty; otherwise `search_query` is `city` and `formatted_query`/`latitude`/`longitude` are the first result's `display_name`/`lat`/`lon` |
| Records.LocationIgnoresLaterResults | server.js:98-100 | results after the first change nothing |
| Records.LocationRoundTrip | server.js:96-101 | a location record is rebuilt from its own fields: the builder loses nothing |
| Records.Trail | server.js:106-117 | copies `name`, `location`, `length`, `stars` and `summary`; maps `starVotes`, `url` and `conditionStatus` to `star_votes`, `trail_url` and `conditions`; `condition_date` and `condition_time` are the first two space-free tokens of `conditionDate`; `condition_time` is undefined exactly when there is no space, and then `condition_date` is all of `conditionDate` |
| Routes.Route | server.js:13-28 | of the requests that reach the application, OPTIONS is answered by the CORS middleware; any method other than GET, HEAD and OPTIONS falls through to `errorHandler`, registered as plain middleware; a GET or HEAD goes to the 404 handler exactly when its path is not `/location`, `/weather` or `/trails`, and otherwise to that path's handler |
| Routes.NotFound | server.js:90-92 | status 404 with the text `Error 404: URL Not found.` |
| Routes.ErrorResponse | server.js:93-95 | status 500 with the text `SORRY AN ERROR OCCURED ` followed by the error's string form |
| Routes.LivePathsRouted | server.js:22-24 | every live path is routed to a handler other than 404, and different live paths to different handlers |
| Routes.UnknownPathNotFound | server.js:27 | any GET outside the live paths goes to the 404 handler |
| Routes.MoviesAndYelpNotFound | server.js:25-27 | GETs on the commented-out `/movies` and `/yelp` routes go to the 404 handler |
| Routes.NonGetFallsToErrorMiddleware | server.js:22-28 | a request that reaches the application with a method other than GET, HEAD or OPTIONS reaches the misregistered `errorHandler` whatever its path; HEAD is routed as GET |
| Handoff.CoordsLength | server.js:34 | `coordArray` holds exactly two entries per successful resolution |
| Handoff.CoordsAt | server.js:52 | the entries of resolution `i` sit at positions `2i` (latitude) and `2i+1` (longitude) |
| Handoff.CoordsExtend | server.js:52 | later resolutions only append; earlier entries are never modified |
| Handoff.FirstResolutionPinned | server.js:52 | once a resolution has happened, `coordArray[0]` and `coordArray[1]` are its coordinates whatever follows |
| Handoff.Resolve | server.js:38-40 | a location request succeeds exactly when the geocoder request is fulfilled with a non-empty list; a fulfilled request gives exactly what `Location` builds from the list, errors included; a rejection carries the error's string form |
| Handoff.LocationResponse | server.js:53-54 | status 200 exactly on success, with the body the location record `Location` builds (all four fields); otherwise the error handler's 500 response for the rejection or the missing first result |
| Handoff.TrailsResponse | server.js:79-84 | on success, status 200 with one `Trail` record per provider entry in the same order; on rejection, the error handler's 500 response |
| Handoff.ServerState.constructor | server.js:32-34 | at process start both coordinates are undefined and `coordArray` is empty |
| Handoff.ServerState.LocationHandler | server.js:36-55 | on success the globals become the new resolution's coordinates, `coordArray` grows by exactly those two, in that order; on any failure nothing changes; the response is the one `LocationResponse` describes |
| Handoff.ServerState.TrailsCoordinates | server.js:79 | the trails request uses the first resolution's coordinates, or undefined before any resolution |
| Handoff.ServerState.TrailsHandler | server.js:78-85 | the trails handler asks about the first resolution's coordinates and answers as `TrailsResponse` describes, without changing the state |
| Handoff.SecondLocationIgnoredByTrails | server.js:41-42 | after two location requests, each rejected, empty or resolved, both globals hold the latest successful resolution (the second, or the first when the second fails, or undefined when both fail) while the trails request asks about the first successful one |

## Left out

- The HTTP calls to the geocoder, the weather provider and the trail provider (server.js:38, 60, 79). Their outcomes are method inputs. The trails URL is not modelled, only the coordinates it embeds.
- The Postgres client: connect, the INSERT on every location request, and the startup `select` (server.js:16-19, 43-51, 119-130). This is database I/O. The INSERT's `.then` tries to send a second response after the first was sent, which throws because the headers are already sent. So its `.catch` (server.js:49) registers middleware at runtime after successful INSERTs as well as failed ones. Neither is modelled.
- `parseFloat` of the coordinates for the INSERT (server.js:44). This is floating-point conversion. Latitude and longitude stay the strings the provider sent.
- `weatherHandler` and the `Weather` constructor (server.js:59-67, 102-105). They depend on JavaScript `Date` parsing and `toDateString`. Only the `/weather` route is modelled.
- Express, CORS and dotenv setup, and the `PORT` default (server.js:3-13). This is configuration.
- Express's own path matching (case-insensitive paths, optional trailing slash). Paths are compared exactly.
- The responses the libraries produce themselves. The model names the handler that gets the request but does not build these responses. `cors()` (server.js:13) answers OPTIONS with 204. `errorHandler` is registered with `app.use` (server.js:28) but takes three parameters, so Express runs it as plain middleware for every request with another method that reaches the application. There it calls `status` on `next`, which throws a TypeError, and Express's default handler answers 500. A HEAD request's body is dropped by the framework.
- Requests that never reach the application. The server registers no `'connect'` listener, so Node closes the socket of a CONNECT request. Node's HTTP parser answers a method it does not know with 400. `Routes.Verb` covers only the methods Node hands to the application.
- Concurrent interleaving of in-flight requests. Each continuation is one atomic step. The order of method calls decides which resolution came first.
- A missing or repeated `city` query parameter, provider bodies of the wrong shape, and a non-string `conditionDate`. Provider bodies are typed values here.
- Js.FailureText: the string form of the `TypeError` thrown when `geoData[0]` is undefined comes from the JavaScript engine. The model uses Node's current wording. For a rejected provider request it is whatever string form the HTTP client gives its error.
