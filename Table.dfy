/**
 * The route table of app/lib/routes.js: three unprotected routes, the session
 * gate, the protected routes and the static-file fallback, in that order.
 * `Table` is the router's layer list as a value; `BuildRouter` makes the same
 * registration calls as the source, one after another, on a `Router`.
 */
module RouteTable {
  import opened Express
  import opened Routes

  // Pattern shorthands: '/a/b', '/a/b/:name?' and '/a/b/:name'.
  function Fixed(segments: seq<string>): (p: Pattern) { Path(segments, NoParam) }
  function Opt(segments: seq<string>, name: string): (p: Pattern) { Path(segments, Optional(name)) }
  function Req(segments: seq<string>, name: string): (p: Pattern) { Path(segments, Required(name)) }

  /** The `.all(methodNotAllowed)` that closes a route. */
  function Reject(codes: StatusCodes): (e: Entry) { Entry(All, RejectMethod(codes)) }

  /** `.get(action)`, `.post(action)`, `.delete(action)`. */
  function GetCalls(a: Action): (e: Entry) { Entry(On(Get), Controller(a)) }
  function PostCalls(a: Action): (e: Entry) { Entry(On(Post), Controller(a)) }
  function DeleteCalls(a: Action): (e: Entry) { Entry(On(Delete), Controller(a)) }

  /** The handlers a protected route registers for a method: a controller action or `returnUserObject`. */
  predicate Answers(h: Handler)
  {
    h.Controller? || h.SendUser?
  }

  /**
   * The shape of every protected route: handlers registered for one method
   * each, closed by `.all(methodNotAllowed)`.
   */
  predicate Standard(stack: seq<Entry>, codes: StatusCodes)
  {
    && |stack| > 0
    && stack[|stack| - 1] == Reject(codes)
    && forall k :: 0 <= k < |stack| - 1 ==> stack[k].filter.On? && Answers(stack[k].handler)
  }

  /** Every layer is a standard route. */
  predicate AllStandard(layers: seq<Layer>, codes: StatusCodes)
  {
    forall j :: 0 <= j < |layers| ==> layers[j].RouteLayer? && Standard(layers[j].stack, codes)
  }

  /**
   * routes.js:57-73, registered before the gate: three routes on exact paths,
   * each closed by a handler for every method.
   */
  function Unprotected(codes: StatusCodes): (layers: seq<Layer>)
    ensures |layers| == 3
    ensures forall j :: 0 <= j < |layers| ==>
      && layers[j].RouteLayer? && layers[j].pattern.Path? && layers[j].pattern.param.NoParam?
      && |layers[j].stack| > 0 && layers[j].stack[|layers[j].stack| - 1].filter.All?
  {
    [ RouteLayer(Fixed(["account", "login"]), [PostCalls(Action(AuthenticationController, Login)), Reject(codes)]),
      RouteLayer(Fixed(["login"]), [Entry(On(Get), SkipIfLoggedIn), GetCalls(Action(HomeController, Login)), Reject(codes)]),
      RouteLayer(Fixed([]), [Entry(All, RedirectHome)]) ]
  }

  /** routes.js:79-87. */
  const Gate: Layer := UseLayer(RequireUser)

  /** routes.js:90-117, the account API: seven standard routes. */
  function AccountApi(codes: StatusCodes): (layers: seq<Layer>)
    ensures |layers| == 7 && AllStandard(layers, codes)
  {
    [ RouteLayer(Fixed(["logout"]), [GetCalls(Action(AuthenticationController, Logout)), Reject(codes)]),
      RouteLayer(Fixed(["user"]), [Entry(On(Get), SendUser), Reject(codes)]),
      RouteLayer(Fixed(["api", "account", "password"]), [PostCalls(Action(AuthenticationController, UpdatePassword)), Reject(codes)]),
      RouteLayer(Fixed(["api", "accounts"]), [GetCalls(Action(AuthenticationController, ListUsers)), Reject(codes)]),
      RouteLayer(Fixed(["api", "account", "role"]), [PostCalls(Action(AuthenticationController, UpdateRole)), Reject(codes)]),
      RouteLayer(Fixed(["api", "account", "branch"]), [PostCalls(Action(AuthenticationController, UpdateBranch)), Reject(codes)]),
      RouteLayer(Opt(["api", "account"], "username"), [PostCalls(Action(AuthenticationController, CreateAccount)), DeleteCalls(Action(AuthenticationController, DeleteAccount)), Reject(codes)]) ]
  }

  /** routes.js:119-148, the tutor, student and match API: seven standard routes. */
  function RecordApi(codes: StatusCodes): (layers: seq<Layer>)
    ensures |layers| == 7 && AllStandard(layers, codes)
  {
    [ RouteLayer(Opt(["api", "tutor"], "id"), [GetCalls(Action(TutorController, GetTutor)), DeleteCalls(Action(TutorController, ExitTutor)), Reject(codes)]),
      RouteLayer(Opt(["api", "student"], "id"), [GetCalls(Action(StudentController, GetStudent)), Reject(codes)]),
      RouteLayer(Req(["api", "autocomplete", "tutor"], "name"), [GetCalls(Action(TutorController, Autocomplete)), Reject(codes)]),
      RouteLayer(Req(["api", "autocomplete", "student"], "name"), [GetCalls(Action(StudentController, Autocomplete)), Reject(codes)]),
      RouteLayer(Fixed(["api", "createstudent"]), [PostCalls(Action(StudentController, CreateStudent)), Reject(codes)]),
      RouteLayer(Fixed(["api", "createtutor"]), [PostCalls(Action(TutorController, CreateTutor)), Reject(codes)]),
      RouteLayer(Opt(["api", "matches"], "id"), [GetCalls(Action(MatchController, GetMatches)), PostCalls(Action(MatchController, AddOrUpdate)), DeleteCalls(Action(MatchController, DissolveMatch)), Reject(codes)]) ]
  }

  /** routes.js:150-160, the data-export API: three standard routes. */
  function ExportApi(codes: StatusCodes): (layers: seq<Layer>)
    ensures |layers| == 3 && AllStandard(layers, codes)
  {
    [ RouteLayer(Fixed(["export", "students"]), [GetCalls(Action(DataExportController, ExportStudents)), Reject(codes)]),
      RouteLayer(Fixed(["export", "tutors"]), [GetCalls(Action(DataExportController, ExportTutors)), Reject(codes)]),
      RouteLayer(Fixed(["export", "matches"]), [GetCalls(Action(DataExportController, ExportMatches)), Reject(codes)]) ]
  }

  /** routes.js:165-199, the front-end pages: nine standard routes. */
  function Pages(codes: StatusCodes): (layers: seq<Layer>)
    ensures |layers| == 9 && AllStandard(layers, codes)
  {
    [ RouteLayer(Fixed(["dashboard"]), [GetCalls(Action(HomeController, Dashboard)), Reject(codes)]),
      RouteLayer(Fixed(["account"]), [GetCalls(Action(HomeController, Account)), Reject(codes)]),
      RouteLayer(Fixed(["administration"]), [GetCalls(Action(HomeController, Admin)), Reject(codes)]),
      RouteLayer(Fixed(["student-form"]), [GetCalls(Action(HomeController, StudentForm)), Reject(codes)]),
      RouteLayer(Fixed(["tutor-form"]), [GetCalls(Action(HomeController, TutorForm)), Reject(codes)]),
      RouteLayer(Opt(["students"], "id"), [GetCalls(Action(HomeController, Students)), Reject(codes)]),
      RouteLayer(Opt(["tutors"], "id"), [GetCalls(Action(HomeController, Tutors)), Reject(codes)]),
      RouteLayer(Fixed(["matching"]), [GetCalls(Action(HomeController, Matching)), Reject(codes)]),
      RouteLayer(Fixed(["export"]), [GetCalls(Action(HomeController, Export)), Reject(codes)]) ]
  }

  /** routes.js:90-199: every route registered after the gate, in order. */
  function Protected(codes: StatusCodes): (layers: seq<Layer>)
    ensures forall j :: 0 <= j < |layers| ==> layers[j].RouteLayer?
  {
    AccountApi(codes) + RecordApi(codes) + ExportApi(codes) + Pages(codes)
  }

  /** routes.js:202, `router.all('*', express.static(...))`. */
  const Fallback: Layer := RouteLayer(Wildcard, [Entry(All, ServeStatic)])

  /**
   * The whole router, in registration order: 31 layers, the gate fourth and
   * the `'*'` route last.
   */
  function Table(codes: StatusCodes): (layers: seq<Layer>)
    ensures |layers| == 31 && layers[3] == Gate && layers[30] == Fallback
  {
    Unprotected(codes) + [Gate] + Protected(codes) + [Fallback]
  }

  /**
   * How the application answers a request: the router never hands a request
   * back, since at worst the `'*'` layer takes it.
   */
  function AppDispatch(codes: StatusCodes, req: Request): (o: Outcome)
    ensures o != Unhandled
  {
    var layers := Table(codes);
    ScanPasses(layers, req);
    assert RunLayer(layers[30], req).Done?;
    Dispatch(layers, req)
  }

  /** The controller actions routes.js hands to the router, read off the table in registration order. */
  function Callbacks(codes: StatusCodes): (actions: seq<Action>)
    ensures forall a :: a in actions <==> exists j :: 0 <= j < |Table(codes)| && Invokes(Table(codes)[j], a)
  {
    LayerActions(Table(codes))
  }

  /**
   * The first action in `callbacks` that the controllers do not define: the
   * registration that receives it gets `undefined` and throws.
   */
  function FirstMissing(callbacks: seq<Action>, controllers: set<Action>): (m: Option<Action>)
    ensures m.None? <==> forall a :: a in callbacks ==> a in controllers
    ensures m.Some? ==> exists i :: && 0 <= i < |callbacks| && callbacks[i] == m.value && m.value !in controllers
                                    && forall j :: 0 <= j < i ==> callbacks[j] in controllers
  {
    if callbacks == [] then None
    else if callbacks[0] !in controllers then Some(callbacks[0])
    else FirstMissing(callbacks[1..], controllers)
  }

  /** What the builder hands back: the router, or a controller action it found missing. */
  datatype Built = Built(router: Router) | Threw(missing: Action)

  /** The registration calls of routes.js:57-73, the unprotected routes. */
  method RegisterUnprotected(router: Router, codes: StatusCodes)
    modifies router
    ensures router.layers == old(router.layers) + Unprotected(codes)
  {
    router.Route(Fixed(["account", "login"]), [PostCalls(Action(AuthenticationController, Login)), Reject(codes)]);
    router.Route(Fixed(["login"]), [Entry(On(Get), SkipIfLoggedIn), GetCalls(Action(HomeController, Login)), Reject(codes)]);
    router.Route(Fixed([]), [Entry(All, RedirectHome)]);
  }

  /** The registration calls of routes.js:90-117, the account API. */
  method RegisterAccountApi(router: Router, codes: StatusCodes)
    modifies router
    ensures router.layers == old(router.layers) + AccountApi(codes)
  {
    router.Route(Fixed(["logout"]), [GetCalls(Action(AuthenticationController, Logout)), Reject(codes)]);
    router.Route(Fixed(["user"]), [Entry(On(Get), SendUser), Reject(codes)]);
    router.Route(Fixed(["api", "account", "password"]), [PostCalls(Action(AuthenticationController, UpdatePassword)), Reject(codes)]);
    router.Route(Fixed(["api", "accounts"]), [GetCalls(Action(AuthenticationController, ListUsers)), Reject(codes)]);
    router.Route(Fixed(["api", "account", "role"]), [PostCalls(Action(AuthenticationController, UpdateRole)), Reject(codes)]);
    router.Route(Fixed(["api", "account", "branch"]), [PostCalls(Action(AuthenticationController, UpdateBranch)), Reject(codes)]);
    router.Route(Opt(["api", "account"], "username"), [PostCalls(Action(AuthenticationController, CreateAccount)), DeleteCalls(Action(AuthenticationController, DeleteAccount)), Reject(codes)]);
  }

  /** The registration calls of routes.js:119-148, the tutor, student and match API. */
  method RegisterRecordApi(router: Router, codes: StatusCodes)
    modifies router
    ensures router.layers == old(router.layers) + RecordApi(codes)
  {
    router.Route(Opt(["api", "tutor"], "id"), [GetCalls(Action(TutorController, GetTutor)), DeleteCalls(Action(TutorController, ExitTutor)), Reject(codes)]);
    router.Route(Opt(["api", "student"], "id"), [GetCalls(Action(StudentController, GetStudent)), Reject(codes)]);
    router.Route(Req(["api", "autocomplete", "tutor"], "name"), [GetCalls(Action(TutorController, Autocomplete)), Reject(codes)]);
    router.Route(Req(["api", "autocomplete", "student"], "name"), [GetCalls(Action(StudentController, Autocomplete)), Reject(codes)]);
    router.Route(Fixed(["api", "createstudent"]), [PostCalls(Action(StudentController, CreateStudent)), Reject(codes)]);
    router.Route(Fixed(["api", "createtutor"]), [PostCalls(Action(TutorController, CreateTutor)), Reject(codes)]);
    router.Route(Opt(["api", "matches"], "id"), [GetCalls(Action(MatchController, GetMatches)), PostCalls(Action(MatchController, AddOrUpdate)), DeleteCalls(Action(MatchController, DissolveMatch)), Reject(codes)]);
  }

  /** The registration calls of routes.js:150-160, the data-export API. */
  method RegisterExportApi(router: Router, codes: StatusCodes)
    modifies router
    ensures router.layers == old(router.layers) + ExportApi(codes)
  {
    router.Route(Fixed(["export", "students"]), [GetCalls(Action(DataExportController, ExportStudents)), Reject(codes)]);
    router.Route(Fixed(["export", "tutors"]), [GetCalls(Action(DataExportController, ExportTutors)), Reject(codes)]);
    router.Route(Fixed(["export", "matches"]), [GetCalls(Action(DataExportController, ExportMatches)), Reject(codes)]);
  }

  /** The registration calls of routes.js:165-199, the front-end pages. */
  method RegisterPages(router: Router, codes: StatusCodes)
    modifies router
    ensures router.layers == old(router.layers) + Pages(codes)
  {
    router.Route(Fixed(["dashboard"]), [GetCalls(Action(HomeController, Dashboard)), Reject(codes)]);
    router.Route(Fixed(["account"]), [GetCalls(Action(HomeController, Account)), Reject(codes)]);
    router.Route(Fixed(["administration"]), [GetCalls(Action(HomeController, Admin)), Reject(codes)]);
    router.Route(Fixed(["student-form"]), [GetCalls(Action(HomeController, StudentForm)), Reject(codes)]);
    router.Route(Fixed(["tutor-form"]), [GetCalls(Action(HomeController, TutorForm)), Reject(codes)]);
    router.Route(Opt(["students"], "id"), [GetCalls(Action(HomeController, Students)), Reject(codes)]);
    router.Route(Opt(["tutors"], "id"), [GetCalls(Action(HomeController, Tutors)), Reject(codes)]);
    router.Route(Fixed(["matching"]), [GetCalls(Action(HomeController, Matching)), Reject(codes)]);
    router.Route(Fixed(["export"]), [GetCalls(Action(HomeController, Export)), Reject(codes)]);
  }

  /** The registration calls of routes.js:57-202 on a fresh router, once every callback is defined. */
  method RegisterAll(codes: StatusCodes) returns (router: Router)
    ensures fresh(router) && router.layers == Table(codes)
  {
    router := new Router();
    RegisterUnprotected(router, codes);
    router.Use(RequireUser);
    ghost var gated := router.layers;
    RegisterAccountApi(router, codes);
    RegisterRecordApi(router, codes);
    RegisterExportApi(router, codes);
    RegisterPages(router, codes);
    assert router.layers == gated + Protected(codes);
    router.Route(Wildcard, [Entry(All, ServeStatic)]);
  }

  /**
   * The exported function of routes.js: registers every route in the source's
   * order and returns the router. It succeeds exactly when the controllers
   * define every callback the table hands over, and the router it returns
   * holds `Table(codes)`; otherwise the first registration given an undefined
   * callback throws, naming that callback.
   */
  method BuildRouter(codes: StatusCodes, controllers: set<Action>) returns (r: Built)
    ensures r.Built? <==> forall a :: a in Callbacks(codes) ==> a in controllers
    ensures r.Built? ==> fresh(r.router) && r.router.layers == Table(codes)
    ensures r.Built? ==> forall j, a :: 0 <= j < |r.router.layers| && Invokes(r.router.layers[j], a) ==> a in controllers
    ensures r.Threw? ==> r == Threw(FirstMissing(Callbacks(codes), controllers).value)
  {
    var missing := FirstMissing(Callbacks(codes), controllers);
    if missing.Some? {
      return Threw(missing.value);
    }
    var router := RegisterAll(codes);
    return Built(router);
  }
}
