/**
 * The request handlers of app/lib/routes.js and the Express router that
 * strings them together: a router is an ordered list of layers, each a route
 * (a pattern with its own ordered stack of method-filtered handlers) or a
 * middleware added with `router.use`. A request is offered to the layers in
 * registration order; a handler either ends the request or passes it on with
 * `next()`, and `next(error)` ends it with that error.
 */
module Routes {
  import opened Express

  /** The user record kept on the session; the router never looks inside it. */
  type User = map<string, string>

  /**
   * What the router reads of a request. `user` is `req.session.user`; `None`
   * stands for every value JavaScript treats as false (absent, null, "").
   */
  datatype Request = Request(verb: Method, path: seq<string>, user: Option<User>)

  /**
   * The status-code registry handed to the route builder: its
   * `METHOD_NOT_ALLOWED` entry, `None` when the registry has none (the error
   * routes.js then raises carries an undefined `status`).
   */
  datatype StatusCodes = StatusCodes(methodNotAllowed: Option<int>)

  /** The controllers handed to the route builder. */
  datatype ControllerName =
    HomeController | AuthenticationController | DataExportController | TutorController | StudentController | MatchController

  /** The controller members the route table refers to, as named in JavaScript (`updateRole` is `UpdateRole`). */
  datatype MemberName =
    | Login | Logout | UpdatePassword | ListUsers | UpdateRole | UpdateBranch | CreateAccount | DeleteAccount
    | GetTutor | ExitTutor | GetStudent | Autocomplete | CreateStudent | CreateTutor
    | GetMatches | AddOrUpdate | DissolveMatch | ExportStudents | ExportTutors | ExportMatches
    | Dashboard | Account | Admin | StudentForm | TutorForm | Students | Tutors | Matching | Export

  /** A controller action, named by its controller and member; its behaviour is not modelled. */
  datatype Action = Action(controller: ControllerName, member: MemberName)

  /** How the router disposes of a request. */
  datatype Outcome =
    | Invoke(action: Action, params: Params)   // a controller action runs with these route parameters
    | Redirect(location: string)               // res.redirect(location)
    | Fail(status: Option<int>, message: string) // next(error) with error.status (None: undefined) and error.message
    | UserJson(user: Option<User>)             // { user: ... } sent as JSON, None being null
    | Static(path: seq<string>)                // the request is handed to the express.static middleware
    | Unhandled                                // every layer called next(): the router hands the request back

  /** What a handler does with a request: pass it on with `next()`, or end it. */
  datatype Step = Next | Done(outcome: Outcome)

  const NotSupported := "Non supported method."

  // The four handlers routes.js defines itself.

  /** `methodNotAllowed`: ends the request with the 405 error. */
  function MethodNotAllowed(codes: StatusCodes): (s: Step)
    ensures s.Done? && s.outcome.Fail?
    ensures s.outcome.status == codes.methodNotAllowed && s.outcome.message == "Non supported method."
  {
    Done(Fail(codes.methodNotAllowed, NotSupported))
  }

  /** `returnUserObject`: always answers, echoing the session user or null. */
  function ReturnUserObject(req: Request): (s: Step)
    ensures s.Done? && s.outcome.UserJson?
    ensures s.outcome.user.None? <==> req.user.None?
    ensures req.user.Some? ==> s.outcome.user == req.user
  {
    if req.user.None? then Done(UserJson(None)) else Done(UserJson(Some(req.user.value)))
  }

  /** `checkIfAlreadyLoggedIn`: a logged-in user is sent to the dashboard, anyone else passes on. */
  function CheckIfAlreadyLoggedIn(req: Request): (s: Step)
    ensures s.Next? <==> req.user.None?
    ensures s.Done? ==> s.outcome == Redirect("/dashboard")
  {
    if req.user.Some? then Done(Redirect("/dashboard")) else Next
  }

  /** The session gate: a request without a user is sent to the login page, one with a user passes on. */
  function SessionGate(req: Request): (s: Step)
    ensures s.Next? <==> req.user.Some?
    ensures s.Done? ==> s.outcome == Redirect("/login")
  {
    if req.user.None? then Done(Redirect("/login")) else Next
  }

  /** The callbacks the route table registers. */
  datatype Handler =
    | Controller(action: Action)      // a controller action, which ends the request
    | RejectMethod(codes: StatusCodes) // methodNotAllowed
    | SendUser                        // returnUserObject
    | SkipIfLoggedIn                  // checkIfAlreadyLoggedIn
    | RedirectHome                    // the inline handler of '/'
    | RequireUser                     // the inline session gate
    | ServeStatic                     // express.static over the protected directory, taken as ending the request

  function RunHandler(h: Handler, req: Request, params: Params): (s: Step)
    ensures s.Done? ==> !s.outcome.Unhandled?
    ensures s.Done? && s.outcome.UserJson? ==> s.outcome.user == req.user
  {
    match h
    case Controller(a) => Done(Invoke(a, params))
    case RejectMethod(codes) => MethodNotAllowed(codes)
    case SendUser => ReturnUserObject(req)
    case SkipIfLoggedIn => CheckIfAlreadyLoggedIn(req)
    case RedirectHome => Done(Redirect("/login"))
    case RequireUser => SessionGate(req)
    case ServeStatic => Done(Static(req.path))
  }

  /** One handler on a route's stack, with the method it was registered for. */
  datatype Entry = Entry(filter: MethodFilter, handler: Handler)

  /** One layer of the router: `router.route(pattern)` with its stack, or `router.use(handler)`. */
  datatype Layer = RouteLayer(pattern: Pattern, stack: seq<Entry>) | UseLayer(handler: Handler)

  /** A route's dispatch: the handlers registered for the request's method run in the order they were added. */
  function RunStack(stack: seq<Entry>, req: Request, params: Params): (s: Step)
    ensures s.Done? ==> !s.outcome.Unhandled?
    ensures s.Done? && s.outcome.UserJson? ==> s.outcome.user == req.user
  {
    if stack == [] then Next
    else if !Admits(stack[0].filter, req.verb) then RunStack(stack[1..], req, params)
    else match RunHandler(stack[0].handler, req, params)
      case Done(o) => Done(o)
      case Next => RunStack(stack[1..], req, params)
  }

  /** Whether a layer takes part in routing `path`: a route when its pattern matches, middleware always. */
  predicate Sees(l: Layer, path: seq<string>)
  {
    l.UseLayer? || Match(l.pattern, path).Some?
  }

  /**
   * A layer's turn: a route runs its stack when its pattern matches the path,
   * with the parameters that match binds; middleware added with `use` sees
   * every path.
   */
  function RunLayer(l: Layer, req: Request): (s: Step)
    ensures s.Done? ==> !s.outcome.Unhandled?
    ensures s.Done? && s.outcome.UserJson? ==> s.outcome.user == req.user
    ensures !Sees(l, req.path) ==> s.Next?
  {
    match l
    case RouteLayer(pattern, stack) =>
      (match Match(pattern, req.path)
       case None => Next
       case Some(params) => RunStack(stack, req, params))
    case UseLayer(h) => RunHandler(h, req, map[])
  }

  /** The router's walk over its layers: the first layer that ends the request decides it. */
  function Scan(layers: seq<Layer>, req: Request): (s: Step)
    ensures s.Done? ==> !s.outcome.Unhandled?
  {
    if layers == [] then Next
    else match RunLayer(layers[0], req)
      case Done(o) => Done(o)
      case Next => Scan(layers[1..], req)
  }

  /** The walk passes the request on exactly when every layer does. */
  lemma {:induction false} ScanPasses(layers: seq<Layer>, req: Request)
    ensures Scan(layers, req).Next? <==> forall j :: 0 <= j < |layers| ==> RunLayer(layers[j], req).Next?
  {
    if layers != [] {
      ScanPasses(layers[1..], req);
      if RunLayer(layers[0], req).Next? {
        forall j | 0 < j < |layers| ensures RunLayer(layers[j], req) == RunLayer(layers[1..][j - 1], req) {
        }
      }
    }
  }

  /**
   * What the router answers: the outcome of the first layer that ends the
   * request, or `Unhandled` (the router calls its own `next()`) when every
   * layer passes it on.
   */
  function Dispatch(layers: seq<Layer>, req: Request): (o: Outcome)
    ensures o == Unhandled <==> Scan(layers, req).Next?
    ensures o != Unhandled ==> Scan(layers, req) == Done(o)
  {
    match Scan(layers, req)
    case Done(o) => o
    case Next => Unhandled
  }

  /** Layer `i` is the one that ends the request: every earlier layer passed it on. */
  ghost predicate DecidedAt(layers: seq<Layer>, req: Request, i: int)
  {
    && 0 <= i < |layers|
    && (forall j :: 0 <= j < i ==> RunLayer(layers[j], req).Next?)
    && RunLayer(layers[i], req).Done?
  }

  /** First match wins: the layer that ends the request decides the outcome, whatever the later layers say. */
  lemma {:induction false} DispatchDecidedAt(layers: seq<Layer>, req: Request, i: int)
    requires DecidedAt(layers, req, i)
    ensures Scan(layers, req) == RunLayer(layers[i], req)
    ensures Dispatch(layers, req) == RunLayer(layers[i], req).outcome
  {
    if i > 0 {
      assert RunLayer(layers[0], req).Next?;
      assert DecidedAt(layers[1..], req, i - 1) by {
        forall j | 0 <= j < i - 1 ensures RunLayer(layers[1..][j], req).Next? {
          assert layers[1..][j] == layers[j + 1];
        }
      }
      DispatchDecidedAt(layers[1..], req, i - 1);
    }
  }

  /** An outcome some layer produced: whatever the router answers, one of its layers said it. */
  lemma {:induction false} DispatchFromSomeLayer(layers: seq<Layer>, req: Request)
    requires Scan(layers, req).Done?
    ensures exists i :: DecidedAt(layers, req, i) && Scan(layers, req) == RunLayer(layers[i], req)
  {
    if RunLayer(layers[0], req).Done? {
      assert DecidedAt(layers, req, 0);
    } else {
      DispatchFromSomeLayer(layers[1..], req);
      var i :| DecidedAt(layers[1..], req, i) && Scan(layers[1..], req) == RunLayer(layers[1..][i], req);
      assert layers[1..][i] == layers[i + 1];
      forall j | 0 <= j < i + 1 ensures RunLayer(layers[j], req).Next? {
        if j > 0 {
          assert layers[j] == layers[1..][j - 1];
        }
      }
      assert DecidedAt(layers, req, i + 1);
    }
  }

  /** Layers registered one after another: the later ones see the request only when the earlier all pass it on. */
  lemma {:induction false} ScanAppend(a: seq<Layer>, b: seq<Layer>, req: Request)
    ensures Scan(a + b, req) == if Scan(a, req).Done? then Scan(a, req) else Scan(b, req)
  {
    if a == [] {
      assert a + b == b;
    } else {
      assert (a + b)[0] == a[0];
      assert (a + b)[1..] == a[1..] + b;
      ScanAppend(a[1..], b, req);
    }
  }

  /** `returnUserObject` is the only source of a user JSON, and it echoes the session: so does the router. */
  lemma {:induction false} DispatchEchoesSessionUser(layers: seq<Layer>, req: Request)
    ensures Dispatch(layers, req).UserJson? ==> Dispatch(layers, req).user == req.user
  {
    if layers != [] && RunLayer(layers[0], req).Next? {
      DispatchEchoesSessionUser(layers[1..], req);
    }
  }

  /** The controller actions a handler hands to the router: its own, if it is a controller action. */
  function HandlerActions(h: Handler): (r: seq<Action>)
    ensures r == [] <==> !h.Controller?
  {
    if h.Controller? then [h.action] else []
  }

  /** The controller actions a stack holds, in the order they were chained. */
  function StackActions(stack: seq<Entry>): (r: seq<Action>)
    ensures forall a :: a in r <==> exists k :: 0 <= k < |stack| && stack[k].handler == Controller(a)
  {
    if stack == [] then []
    else
      assert forall k :: 0 < k < |stack| ==> stack[k] == stack[1..][k - 1];
      assert forall k :: 0 <= k < |stack| - 1 ==> stack[1..][k] == stack[k + 1];
      HandlerActions(stack[0].handler) + StackActions(stack[1..])
  }

  /** Whether a layer hands the action `a` to the router. */
  predicate Invokes(l: Layer, a: Action)
  {
    match l
    case RouteLayer(_, stack) => exists k :: 0 <= k < |stack| && stack[k].handler == Controller(a)
    case UseLayer(h) => h == Controller(a)
  }

  /** The controller actions handed to the router, in registration order: layer by layer, and along each stack. */
  function LayerActions(layers: seq<Layer>): (r: seq<Action>)
    ensures forall a :: a in r <==> exists j :: 0 <= j < |layers| && Invokes(layers[j], a)
  {
    if layers == [] then []
    else
      var own := match layers[0] case RouteLayer(_, stack) => StackActions(stack) case UseLayer(h) => HandlerActions(h);
      assert forall j :: 0 < j < |layers| ==> layers[j] == layers[1..][j - 1];
      assert forall j :: 0 <= j < |layers| - 1 ==> layers[1..][j] == layers[j + 1];
      own + LayerActions(layers[1..])
  }

  /**
   * The Express router object: `layers` is its stack, appended to by each
   * registration call.
   */
  class Router {
    var layers: seq<Layer>

    /** `express.Router()`: an empty router. */
    constructor ()
      ensures layers == []
    {
      layers := [];
    }

    /**
     * `router.route(pattern).m1(h1).m2(h2)...`: appends one route whose stack
     * holds the handlers in the order they were chained.
     */
    method Route(pattern: Pattern, stack: seq<Entry>)
      modifies this
      ensures layers == old(layers) + [RouteLayer(pattern, stack)]
    {
      layers := layers + [RouteLayer(pattern, stack)];
    }

    /** `router.use(handler)`: appends middleware that sees every path. */
    method Use(h: Handler)
      modifies this
      ensures layers == old(layers) + [UseLayer(h)]
    {
      layers := layers + [UseLayer(h)];
    }

    /**
     * The router's handling of one request: it walks its layers in order and
     * stops at the first one that ends the request.
     */
    method Handle(req: Request) returns (o: Outcome)
      ensures o == Dispatch(layers, req)
      ensures o == Unhandled <==> forall j :: 0 <= j < |layers| ==> RunLayer(layers[j], req).Next?
      ensures o != Unhandled ==> exists i :: DecidedAt(layers, req, i) && o == RunLayer(layers[i], req).outcome
    {
      var idx := 0;
      while idx < |layers|
        invariant 0 <= idx <= |layers|
        invariant forall j :: 0 <= j < idx ==> RunLayer(layers[j], req).Next?
      {
        var s := RunLayer(layers[idx], req);
        if s.Done? {
          assert DecidedAt(layers, req, idx);
          DispatchDecidedAt(layers, req, idx);
          ScanPasses(layers, req);
          return s.outcome;
        }
        idx := idx + 1;
      }
      ScanPasses(layers, req);
      return Unhandled;
    }
  }
}
