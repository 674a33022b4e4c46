# Request dispatch of the tutor/student matching application

This project models `app/lib/routes.js`, the module that builds the application's
Express router. The module is handed a status-code registry and six controllers
(Home, Authentication, DataExport, Tutor, Student, Match). It registers, in
this order:

1. three unprotected routes: `/account/login`, `/login` and `/`;
2. a session gate that sends every request without a session user to `/login`;
3. twenty-six protected routes (the account, record and export APIs and the
   front-end pages), each closed by `.all(methodNotAllowed)`;
4. a catch-all `'*'` that hands the request to the static-file middleware.

The router offers a request to its layers in registration order, and the first
one that ends the request decides it.

The model is split into four modules:

- `Express` (`Express.dfy`) states what the table assumes of Express: request
  methods, route patterns with at most one trailing parameter (`:name?` or
  `:name`) or `'*'`, and matching of a request path given as a list of
  segments. Its lemmas say what a match means and that matching inverts
  expansion of a pattern.
- `Routes` (`Routes.dfy`) holds the four handlers that routes.js defines itself,
  the layer/stack dispatch of an Express router as functions, and the `Router`
  class whose registration methods append layers and whose `Handle` method
  walks the layers with a loop proved equal to `Dispatch`.
- `RouteTable` (`Table.dfy`) is the route table as a value (`Table`) and as the
  sequence of registration calls the source makes (`BuildRouter`).
- `RouteProperties` (`Properties.dfy`) proves what the table does with a
  request: the public routes, the gate before any protected route or 405,
  first match wins, a registered method runs its action and any other gets 405,
  optional and required parameters, the static fallback, and that
  `returnUserObject`'s null branch is unreachable.

Two points of the code's behaviour are easy to get wrong:

- A wrong method on a route that matches gets 405 from that route's own
  `.all(methodNotAllowed)`, ahead of the static fallback. 405 is not a last
  stage after static serving.
- Besides optional parameters, the code has required ones
  (`/api/autocomplete/tutor/:name`). Without the name such a path matches no
  route and is handed to the static middleware.

## Model

| member | source | states |
|---|---|---|
| Express.Match | app/lib/routes.js:202 | `'*'` matches every path |
| Express.Expand | app/lib/routes.js:114 | a pattern filled with an argument is its literal segments plus that one segment |
| Express.MatchMeaning | app/lib/routes.js:114-134 | a pattern matches exactly the paths it expands to with an argument that fits its parameter (none, optional or required, never an empty segment), and binds that argument under the parameter's name |
| Express.MatchExpand | app/lib/routes.js:114-134 | round trip: a pattern matches each of its expansions and binds the argument it was filled with |
| Routes.MethodNotAllowed | app/lib/routes.js:17-21 | ends the request with an error whose status is the registry's METHOD_NOT_ALLOWED (undefined when the registry has none) and whose message is "Non supported method." |
| Routes.ReturnUserObject | app/lib/routes.js:26-35 | always ends the request with a user JSON; it is null exactly when the session has no user and otherwise is the session's user |
| Routes.CheckIfAlreadyLoggedIn | app/lib/routes.js:44-49 | passes the request on exactly when there is no session user; otherwise redirects to /dashboard |
| Routes.SessionGate | app/lib/routes.js:79-87 | passes the request on exactly when there is a session user; otherwise redirects to /login |
| Routes.RunHandler | app/lib/routes.js:17-87 | a handler that ends a request never leaves it unhandled, and a user JSON it sends is the session's user |
| Routes.RunStack | app/lib/routes.js:64-67 | a route's chained handlers for the request's method run in order; an ending never leaves the request unhandled, and a user JSON is the session's user |
| Routes.RunLayer | app/lib/routes.js:57-87 | a route whose pattern does not match the path passes the request on; an ending is never "unhandled" and echoes the session user |
| Routes.Scan | app/lib/routes.js:57-202 | the walk over the layers, ending at the first layer that ends the request; such an end is never "unhandled" |
| Routes.ScanPasses | app/lib/routes.js:57-202 | the walk passes the request on exactly when every layer does |
| Routes.Dispatch | app/lib/routes.js:57-202 | the router's answer: `Unhandled` exactly when the walk passes the request on (by `ScanPasses`, when every layer does), otherwise the outcome the walk ended with |
| Routes.DispatchDecidedAt | app/lib/routes.js:57-202 | first match wins: when layer i ends the request and all earlier layers pass it on, the router's answer is layer i's, whatever follows |
| Routes.DispatchFromSomeLayer | app/lib/routes.js:57-202 | every answer the router gives was produced by the first layer to end the request |
| Routes.ScanAppend | app/lib/routes.js:57-202 | layers registered later see a request only when all earlier layers passed it on |
| Routes.DispatchEchoesSessionUser | app/lib/routes.js:26-35 | any user JSON the router sends is the session's user |
| Routes.StackActions | app/lib/routes.js:64-67 | the controller actions chained on a route are exactly those of its stack's handlers |
| Routes.LayerActions | app/lib/routes.js:57-202 | the controller actions handed to a router are exactly those some layer invokes |
| Routes.Router.constructor | app/lib/routes.js:12 | `express.Router()` starts with no layers |
| Routes.Router.Route | app/lib/routes.js:57-59 | `router.route(p)` with its chained handlers appends exactly one route layer with that stack |
| Routes.Router.Use | app/lib/routes.js:79 | `router.use(h)` appends exactly one middleware layer |
| Routes.Router.Handle | app/lib/routes.js:12-204 | the router's loop over its layers answers `Dispatch` of its layers: unhandled exactly when every layer passed the request on, otherwise the answer of the first layer to end it |
| RouteTable.Unprotected | app/lib/routes.js:57-73 | three routes on exact paths, each closed by a handler for every method |
| RouteTable.AccountApi | app/lib/routes.js:90-117 | seven routes, each handlers for single methods closed by `.all(methodNotAllowed)` |
| RouteTable.RecordApi | app/lib/routes.js:119-148 | seven routes, each handlers for single methods closed by `.all(methodNotAllowed)` |
| RouteTable.ExportApi | app/lib/routes.js:150-160 | three routes, each handlers for single methods closed by `.all(methodNotAllowed)` |
| RouteTable.Pages | app/lib/routes.js:165-199 | nine routes, each handlers for single methods closed by `.all(methodNotAllowed)` |
| RouteTable.Table | app/lib/routes.js:57-202 | the router's 31 layers in registration order: the gate fourth, the `'*'` route last |
| RouteTable.AppDispatch | app/lib/routes.js:202 | the router never hands a request back before reaching the `'*'` layer: every request gets an answer |
| RouteTable.Callbacks | app/lib/routes.js:57-199 | the callbacks handed over are read off the table: exactly the actions some layer invokes |
| RouteTable.Protected | app/lib/routes.js:90-199 | every protected registration is a route, not middleware |
| RouteTable.FirstMissing | app/lib/routes.js:57-199 | none exactly when every callback is defined; otherwise the earliest undefined callback in registration order |
| RouteTable.RegisterUnprotected | app/lib/routes.js:57-73 | the three unprotected registrations append exactly those routes |
| RouteTable.RegisterAccountApi | app/lib/routes.js:90-117 | the account API registrations append exactly those seven routes in order |
| RouteTable.RegisterRecordApi | app/lib/routes.js:119-148 | the tutor, student and match API registrations append exactly those seven routes in order |
| RouteTable.RegisterExportApi | app/lib/routes.js:150-160 | the export API registrations append exactly those three routes in order |
| RouteTable.RegisterPages | app/lib/routes.js:165-199 | the front-end page registrations append exactly those nine routes in order |
| RouteTable.RegisterAll | app/lib/routes.js:12-204 | a fresh router holding the unprotected routes, the gate, the protected routes and the static catch-all, in source order |
| RouteTable.BuildRouter | app/lib/routes.js:11-205 | building succeeds exactly when every callback the table hands over is defined, yielding a fresh router that holds the table and invokes only defined actions; otherwise it fails naming the first undefined callback in registration order |
| RouteProperties.ClosedStackEnds | app/lib/routes.js:59 | a stack closed by an `.all` handler that ends the request ends every request |
| RouteProperties.ClosedLayerEnds | app/lib/routes.js:90-199 | a closed route ends a request exactly when its pattern matches the path |
| RouteProperties.StandardRejects | app/lib/routes.js:90-92 | a protected-style route with no handler for the request's method answers 405 |
| RouteProperties.StandardRuns | app/lib/routes.js:144-148 | a protected-style route runs the first handler registered for the request's method |
| RouteProperties.StandardOutcomes | app/lib/routes.js:90-199 | a protected-style route always ends the request, with a controller action, the user JSON or 405 |
| RouteProperties.FirstMatchDecides | app/lib/routes.js:90-199 | among closed routes, the first whose pattern matches decides the request |
| RouteProperties.NoMatchPasses | app/lib/routes.js:90-199 | closed routes all pass a request on exactly when none of their patterns matches |
| RouteProperties.ProtectedStandard | app/lib/routes.js:90-199 | every protected route has handlers for single methods, closed by `.all(methodNotAllowed)` |
| RouteProperties.TableScan | app/lib/routes.js:57-202 | the layout: a public route that ends the request decides it, else the gate redirects a visitor without a user, else the first protected route to end it decides, else static serving |
| RouteProperties.UnprotectedPasses | app/lib/routes.js:57-73 | every path other than '/', '/login' and '/account/login' passes the public routes by |
| RouteProperties.ProtectedScan | app/lib/routes.js:90-199 | the protected routes decide group after group in registration order |
| RouteProperties.RootRedirects | app/lib/routes.js:70-73 | '/' redirects to /login for every method and session |
| RouteProperties.AccountLoginRoute | app/lib/routes.js:57-59 | '/account/login': POST runs `AuthenticationController.login`, every other method gets 405, with or without a session |
| RouteProperties.LoginRoute | app/lib/routes.js:64-67 | '/login': GET with a user redirects to /dashboard, GET without one runs `HomeController.login`, other methods get 405 |
| RouteProperties.GateRedirects | app/lib/routes.js:79-87 | without a user, every non-public path redirects to /login whatever the method, so it never reaches a 405 or a static file |
| RouteProperties.ProtectedNeverPublic | app/lib/routes.js:57-199 | the two tables are disjoint: no protected pattern matches '/', '/login' or '/account/login' |
| RouteProperties.ProtectedPathRedirects | app/lib/routes.js:79-199 | without a user, a path a protected route matches redirects to /login whatever the method, before any 405 |
| RouteProperties.AuthenticatedScan | app/lib/routes.js:85 | with a user, a non-public path is answered by the protected routes, or else handed to the static middleware |
| RouteProperties.ProtectedRoute | app/lib/routes.js:90-199 | with a user, the first protected route whose pattern matches ends the request and its answer is the router's |
| RouteProperties.ProtectedRouteRuns | app/lib/routes.js:90-199 | a registered method on the first matching protected route runs its handler with the bound parameters |
| RouteProperties.ProtectedRouteRejects | app/lib/routes.js:90-199 | a method the first matching protected route does not register gets 405 |
| RouteProperties.StaticFallback | app/lib/routes.js:202 | the static middleware is handed exactly the logged-in, non-public requests whose path no protected pattern matches, with the request path; such a request never gets 405 |
| RouteProperties.NeverNullUser | app/lib/routes.js:27-31 | the router only sends a user JSON with a session user, that user, so the null branch is never taken |
| RouteProperties.AccountApiIgnores | app/lib/routes.js:90-117 | an '/api/' path not under 'account' or 'accounts' passes the account API by |
| RouteProperties.UserRoute | app/lib/routes.js:94-96 | GET '/user' answers the session's user, or redirects to /login without one |
| RouteProperties.RoleBeforeUsername | app/lib/routes.js:106-117 | POST '/api/account/role' runs `updateRole` although the later '/api/account/:username?' matches it too |
| RouteProperties.PasswordRejectsGet | app/lib/routes.js:98-100 | GET '/api/account/password' gets 405 |
| RouteProperties.TutorIdOptional | app/lib/routes.js:119-122 | GET '/api/tutor' and '/api/tutor/:id' both run `getTutor`, with the id bound when given |
| RouteProperties.AutocompleteNeedsName | app/lib/routes.js:128-130 | '/api/autocomplete/tutor' without a name matches no route and is handed to the static middleware, whatever the method |
| RouteProperties.AutocompleteWithName | app/lib/routes.js:128-130 | GET '/api/autocomplete/tutor/:name' runs `TutorController.autocomplete` with that name |

## Left out

- Express matching details: HEAD answered by GET handlers, case-insensitive paths, trailing-slash tolerance, URL decoding, automatic OPTIONS answers. Paths match segment by segment, exactly.
- express.static: `Static(path)` stands for handing the request to the static middleware, and the model treats that as the end of routing. In fact the middleware calls `next()` for every method other than GET and HEAD, and for a file it cannot find. The request then leaves the router for the application's own 404 handling, which is not modelled. The `'*'` route's parameters are not modelled either.
- Controller actions are opaque and always end the request; their behaviour, and whether they call `next`, is not modelled.
- Sessions: only whether `req.session.user` is truthy matters. Every falsy value is `None`, and the user record is never looked into.
- What happens to the 405 error after `next(error)`, and the rest of app/index.js (application setup, the error handler, the dependency resolver) are not part of this model.
- The `redirectToLogin` helper (app/lib/routes.js:37-39) is defined but never used, so it is not modelled.
- RouteTable.BuildRouter: routes.js throws at the first registration handed an undefined callback, after registering the routes before it. The model checks all callbacks up front and returns no router. The partly built router is discarded in both cases, but the intermediate router state is not modelled.
- The status-code registry: only its `METHOD_NOT_ALLOWED` entry is read, as `Option<int>`. `None` stands for a missing entry, which gives the 405 error an undefined `status`.
- Request methods: `Other(verb)` is assumed never to hold one of the listed verbs. `Other("GET")` is not identified with `Get`.
- Requests: only the method, the path segments and the session user are modelled. Headers, bodies, query strings and responses are not.
