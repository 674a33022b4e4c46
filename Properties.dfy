/**
 * What the route table of app/lib/routes.js does with a request, proved from
 * the table itself: the public routes, the session gate in front of every
 * protected route, first-match-wins among the protected routes, the 405
 * answer for a method a route does not register, and the static fallback.
 */
module RouteProperties {
  import opened Express
  import opened Routes
  import opened RouteTable

  /** The paths routed before the session gate: '/', '/login' and '/account/login'. */
  predicate IsPublic(path: seq<string>)
  {
    path == [] || path == ["login"] || path == ["account", "login"]
  }

  // ------------------------------------------------------------------
  // Route stacks

  /** A handler that ends every request it is given. */
  predicate Ends(h: Handler)
  {
    h.Controller? || h.RejectMethod? || h.SendUser? || h.RedirectHome? || h.ServeStatic?
  }

  /** A route whose stack closes with a handler for every method that ends the request. */
  predicate Closed(l: Layer)
  {
    && l.RouteLayer?
    && |l.stack| > 0
    && l.stack[|l.stack| - 1].filter.All?
    && Ends(l.stack[|l.stack| - 1].handler)
  }

  /** A stack closed by a catch-all handler that ends the request always ends it. */
  lemma {:induction false} ClosedStackEnds(stack: seq<Entry>, req: Request, params: Params)
    requires |stack| > 0 && stack[|stack| - 1].filter.All? && Ends(stack[|stack| - 1].handler)
    ensures RunStack(stack, req, params).Done?
  {
    if |stack| > 1 {
      assert stack[1..][|stack[1..]| - 1] == stack[|stack| - 1];
      ClosedStackEnds(stack[1..], req, params);
    }
  }

  /** A closed route ends the request exactly when its pattern matches the path. */
  lemma {:induction false} ClosedLayerEnds(l: Layer, req: Request)
    requires Closed(l)
    ensures RunLayer(l, req).Done? <==> Sees(l, req.path)
  {
    if Match(l.pattern, req.path).Some? {
      ClosedStackEnds(l.stack, req, Match(l.pattern, req.path).value);
    }
  }

  /** A standard route with no handler for the request's method answers 405. */
  lemma {:induction false} StandardRejects(stack: seq<Entry>, codes: StatusCodes, req: Request, params: Params)
    requires Standard(stack, codes)
    requires forall k :: 0 <= k < |stack| - 1 ==> stack[k].filter.verb != req.verb
    ensures RunStack(stack, req, params) == MethodNotAllowed(codes)
  {
    if |stack| > 1 {
      var rest := stack[1..];
      forall k | 0 <= k < |rest| - 1
        ensures rest[k].filter.On? && Answers(rest[k].handler) && rest[k].filter.verb != req.verb
      {
        assert rest[k] == stack[k + 1];
      }
      assert rest[|rest| - 1] == stack[|stack| - 1];
      StandardRejects(rest, codes, req, params);
    }
  }

  /** A standard route runs the first handler registered for the request's method. */
  lemma {:induction false} StandardRuns(stack: seq<Entry>, codes: StatusCodes, req: Request, params: Params, k: int)
    requires Standard(stack, codes)
    requires 0 <= k < |stack| - 1 && stack[k].filter.verb == req.verb
    requires forall j :: 0 <= j < k ==> stack[j].filter.verb != req.verb
    ensures RunStack(stack, req, params) == RunHandler(stack[k].handler, req, params)
  {
    if k > 0 {
      var rest := stack[1..];
      forall j | 0 <= j < |rest| - 1
        ensures rest[j].filter.On? && Answers(rest[j].handler)
      {
        assert rest[j] == stack[j + 1];
      }
      forall j | 0 <= j < k - 1
        ensures rest[j].filter.verb != req.verb
      {
        assert rest[j] == stack[j + 1];
      }
      assert rest[|rest| - 1] == stack[|stack| - 1];
      StandardRuns(rest, codes, req, params, k - 1);
    }
  }

  /** A standard route always answers: with a controller action, the user object, or 405. */
  lemma {:induction false} StandardOutcomes(stack: seq<Entry>, codes: StatusCodes, req: Request, params: Params)
    requires Standard(stack, codes)
    ensures RunStack(stack, req, params).Done?
    ensures var o := RunStack(stack, req, params).outcome;
      o.Invoke? || o.UserJson? || o == Fail(codes.methodNotAllowed, NotSupported)
  {
    if |stack| > 1 {
      var rest := stack[1..];
      forall j | 0 <= j < |rest| - 1
        ensures rest[j].filter.On? && Answers(rest[j].handler)
      {
        assert rest[j] == stack[j + 1];
      }
      assert rest[|rest| - 1] == stack[|stack| - 1];
      StandardOutcomes(rest, codes, req, params);
    }
  }

  /** Among closed routes, the first whose pattern matches decides the request. */
  lemma {:induction false} FirstMatchDecides(layers: seq<Layer>, req: Request, i: int)
    requires 0 <= i < |layers| && Closed(layers[i]) && Sees(layers[i], req.path)
    requires forall j :: 0 <= j < i ==> !Sees(layers[j], req.path)
    ensures Scan(layers, req) == RunLayer(layers[i], req)
  {
    ClosedLayerEnds(layers[i], req);
    assert DecidedAt(layers, req, i);
    DispatchDecidedAt(layers, req, i);
  }

  /** Closed routes all pass a request on exactly when none of their patterns matches. */
  lemma {:induction false} NoMatchPasses(layers: seq<Layer>, req: Request)
    requires forall j :: 0 <= j < |layers| ==> Closed(layers[j])
    ensures Scan(layers, req).Next? <==> forall j :: 0 <= j < |layers| ==> !Sees(layers[j], req.path)
  {
    forall j | 0 <= j < |layers| ensures RunLayer(layers[j], req).Next? <==> !Sees(layers[j], req.path) {
      ClosedLayerEnds(layers[j], req);
    }
    ScanPasses(layers, req);
  }

  // ------------------------------------------------------------------
  // The table

  lemma {:induction false} StandardAppend(a: seq<Layer>, b: seq<Layer>, codes: StatusCodes)
    requires AllStandard(a, codes) && AllStandard(b, codes)
    ensures AllStandard(a + b, codes)
  {
    forall j | |a| <= j < |a + b| ensures (a + b)[j] == b[j - |a|] {
    }
  }

  /** Every protected route is standard, and so ends every request its pattern matches. */
  lemma {:induction false} ProtectedStandard(codes: StatusCodes)
    ensures AllStandard(Protected(codes), codes)
    ensures forall j :: 0 <= j < |Protected(codes)| ==> Closed(Protected(codes)[j])
  {
    var a, r, e, p := AccountApi(codes), RecordApi(codes), ExportApi(codes), Pages(codes);
    StandardAppend(a, r, codes);
    StandardAppend(a + r, e, codes);
    StandardAppend(a + r + e, p, codes);
  }

  /** A gate between two lists of layers and a catch-all after them. */
  lemma {:induction false} LayoutScan(u: seq<Layer>, p: seq<Layer>, req: Request)
    ensures Scan(u + [Gate] + p + [Fallback], req) ==
      if Scan(u, req).Done? then Scan(u, req)
      else if req.user.None? then Done(Redirect("/login"))
      else if Scan(p, req).Done? then Scan(p, req)
      else Done(Static(req.path))
  {
    ScanAppend(u + [Gate] + p, [Fallback], req);
    ScanAppend(u + [Gate], p, req);
    ScanAppend(u, [Gate], req);
  }

  /**
   * The layout of the router: a public route that ends the request decides
   * it; otherwise the gate sends a visitor without a user to the login page;
   * otherwise the first protected route to end the request decides it; and
   * whatever is left is handed to the static middleware.
   */
  lemma {:induction false} TableScan(codes: StatusCodes, req: Request)
    ensures Scan(Table(codes), req) ==
      if Scan(Unprotected(codes), req).Done? then Scan(Unprotected(codes), req)
      else if req.user.None? then Done(Redirect("/login"))
      else if Scan(Protected(codes), req).Done? then Scan(Protected(codes), req)
      else Done(Static(req.path))
  {
    LayoutScan(Unprotected(codes), Protected(codes), req);
  }

  /** The public routes, taken one at a time: the scan of a list of layers through its first layer. */
  lemma {:induction false} ScanFirst(l: Layer, rest: seq<Layer>, req: Request)
    ensures Scan([l] + rest, req) == if RunLayer(l, req).Done? then RunLayer(l, req) else Scan(rest, req)
  {
    assert ([l] + rest)[0] == l;
    assert ([l] + rest)[1..] == rest;
  }

  /** Every path other than the three public ones passes the public routes by. */
  lemma {:induction false} UnprotectedPasses(codes: StatusCodes, req: Request)
    requires !IsPublic(req.path)
    ensures Scan(Unprotected(codes), req).Next?
  {
    var u := Unprotected(codes);
    assert u == [u[0]] + ([u[1]] + [u[2]]);
    ScanFirst(u[0], [u[1]] + [u[2]], req);
    ScanFirst(u[1], [u[2]], req);
    assert !Sees(u[0], req.path) && !Sees(u[1], req.path) && !Sees(u[2], req.path);
  }

  /** '/account/login': a POST runs `AuthenticationController.login`, any other method is refused with 405. */
  lemma {:induction false} AccountLoginScan(codes: StatusCodes, req: Request)
    requires req.path == ["account", "login"]
    ensures Scan(Unprotected(codes), req) ==
      Done(if req.verb == Post then Invoke(Action(AuthenticationController, Login), map[]) else Fail(codes.methodNotAllowed, NotSupported))
  {
    var u := Unprotected(codes);
    assert u == [u[0]] + ([u[1]] + [u[2]]);
    ScanFirst(u[0], [u[1]] + [u[2]], req);
    assert Match(u[0].pattern, req.path) == Some(map[]);
    assert u[0].stack[1..] == [Reject(codes)];
    assert RunStack(u[0].stack[1..], req, map[]) == Done(Fail(codes.methodNotAllowed, NotSupported));
    assert RunLayer(u[0], req) == RunStack(u[0].stack, req, map[]);
  }

  /**
   * '/login': a GET from a logged-in user is sent to the dashboard, a GET
   * from anyone else gets the login page, any other method is refused.
   */
  lemma {:induction false} LoginScan(codes: StatusCodes, req: Request)
    requires req.path == ["login"]
    ensures Scan(Unprotected(codes), req) ==
      Done(if req.verb != Get then Fail(codes.methodNotAllowed, NotSupported)
           else if req.user.Some? then Redirect("/dashboard")
           else Invoke(Action(HomeController, Login), map[]))
  {
    var u := Unprotected(codes);
    assert u == [u[0]] + ([u[1]] + [u[2]]);
    ScanFirst(u[0], [u[1]] + [u[2]], req);
    ScanFirst(u[1], [u[2]], req);
    assert !Sees(u[0], req.path);
    assert Match(u[1].pattern, req.path) == Some(map[]);
    var stack := u[1].stack;
    assert RunLayer(u[1], req) == RunStack(stack, req, map[]);
    var rest := stack[1..];
    assert rest == [GetCalls(Action(HomeController, Login)), Reject(codes)];
    assert rest[1..] == [Reject(codes)];
    if req.verb != Get {
      assert RunStack(rest[1..], req, map[]) == Done(Fail(codes.methodNotAllowed, NotSupported));
      assert RunStack(rest, req, map[]) == RunStack(rest[1..], req, map[]);
      assert RunStack(stack, req, map[]) == RunStack(rest, req, map[]);
    } else if req.user.Some? {
      assert RunStack(stack, req, map[]) == Done(Redirect("/dashboard"));
    } else {
      assert RunStack(rest, req, map[]) == Done(Invoke(Action(HomeController, Login), map[]));
      assert RunStack(stack, req, map[]) == RunStack(rest, req, map[]);
    }
  }

  /** '/': every request is sent to the login page. */
  lemma {:induction false} RootScan(codes: StatusCodes, req: Request)
    requires req.path == []
    ensures Scan(Unprotected(codes), req) == Done(Redirect("/login"))
  {
    var u := Unprotected(codes);
    assert u == [u[0]] + ([u[1]] + [u[2]]);
    ScanFirst(u[0], [u[1]] + [u[2]], req);
    ScanFirst(u[1], [u[2]], req);
    assert !Sees(u[0], req.path) && !Sees(u[1], req.path);
    assert Match(u[2].pattern, req.path) == Some(map[]);
  }

  /** The protected routes, group after group in registration order. */
  lemma {:induction false} ProtectedScan(codes: StatusCodes, req: Request)
    ensures Scan(Protected(codes), req) ==
      if Scan(AccountApi(codes), req).Done? then Scan(AccountApi(codes), req)
      else if Scan(RecordApi(codes), req).Done? then Scan(RecordApi(codes), req)
      else if Scan(ExportApi(codes), req).Done? then Scan(ExportApi(codes), req)
      else Scan(Pages(codes), req)
  {
    var a, r, e, p := AccountApi(codes), RecordApi(codes), ExportApi(codes), Pages(codes);
    ScanAppend(a + r + e, p, req);
    ScanAppend(a + r, e, req);
    ScanAppend(a, r, req);
  }

  // ------------------------------------------------------------------
  // How the application answers a request

  /** '/' sends every request to the login page, whatever the method and the session. */
  lemma {:induction false} RootRedirects(codes: StatusCodes, req: Request)
    requires req.path == []
    ensures AppDispatch(codes, req) == Redirect("/login")
  {
    TableScan(codes, req);
    RootScan(codes, req);
  }

  /** '/account/login', whatever the session: a POST logs in, any other method gets 405. */
  lemma {:induction false} AccountLoginRoute(codes: StatusCodes, req: Request)
    requires req.path == ["account", "login"]
    ensures AppDispatch(codes, req) ==
      if req.verb == Post then Invoke(Action(AuthenticationController, Login), map[]) else Fail(codes.methodNotAllowed, NotSupported)
  {
    TableScan(codes, req);
    AccountLoginScan(codes, req);
  }

  /**
   * '/login': `checkIfAlreadyLoggedIn` sends a logged-in user to the
   * dashboard and lets anyone else through to the login page; any method
   * other than GET gets 405.
   */
  lemma {:induction false} LoginRoute(codes: StatusCodes, req: Request)
    requires req.path == ["login"]
    ensures AppDispatch(codes, req) ==
      if req.verb != Get then Fail(codes.methodNotAllowed, NotSupported)
      else if req.user.Some? then Redirect("/dashboard")
      else Invoke(Action(HomeController, Login), map[])
  {
    TableScan(codes, req);
    LoginScan(codes, req);
  }

  /**
   * The session gate: without a user, every path other than the three public
   * ones is sent to the login page, whatever the method, so no protected
   * route, 405 answer or static file is ever reached.
   */
  lemma {:induction false} GateRedirects(codes: StatusCodes, req: Request)
    requires !IsPublic(req.path) && req.user.None?
    ensures AppDispatch(codes, req) == Redirect("/login")
  {
    TableScan(codes, req);
    UnprotectedPasses(codes, req);
  }

  /** No account-API pattern matches a public path. */
  lemma {:induction false} AccountApiAvoidsPublic(codes: StatusCodes, path: seq<string>)
    requires IsPublic(path)
    ensures forall l | l in AccountApi(codes) :: !Sees(l, path)
  {
  }

  /** No record-API pattern matches a public path. */
  lemma {:induction false} RecordApiAvoidsPublic(codes: StatusCodes, path: seq<string>)
    requires IsPublic(path)
    ensures forall l | l in RecordApi(codes) :: !Sees(l, path)
  {
  }

  /** No export-API pattern matches a public path. */
  lemma {:induction false} ExportApiAvoidsPublic(codes: StatusCodes, path: seq<string>)
    requires IsPublic(path)
    ensures forall l | l in ExportApi(codes) :: !Sees(l, path)
  {
  }

  /** No front-end page pattern matches a public path. */
  lemma {:induction false} PagesAvoidPublic(codes: StatusCodes, path: seq<string>)
    requires IsPublic(path)
    ensures forall l | l in Pages(codes) :: !Sees(l, path)
  {
    var g := Pages(codes);
    forall j | 0 <= j < |g| ensures !Sees(g[j], path) {
      if path == ["account", "login"] {
        assert path[..1] == ["account"];
      }
    }
  }

  /**
   * The two tables are disjoint: a path some protected pattern matches is none
   * of the three public paths, so the gate stands in front of it.
   */
  lemma {:induction false} ProtectedNeverPublic(codes: StatusCodes, path: seq<string>, j: int)
    requires 0 <= j < |Protected(codes)| && Sees(Protected(codes)[j], path)
    ensures !IsPublic(path)
  {
    var l := Protected(codes)[j];
    assert l in Protected(codes);
    if IsPublic(path) {
      AccountApiAvoidsPublic(codes, path);
      RecordApiAvoidsPublic(codes, path);
      ExportApiAvoidsPublic(codes, path);
      PagesAvoidPublic(codes, path);
      assert false;
    }
  }

  /**
   * The gate runs before any protected route: without a user, a path some
   * protected pattern matches is sent to the login page whatever the method,
   * and never refused with 405.
   */
  lemma {:induction false} ProtectedPathRedirects(codes: StatusCodes, req: Request, j: int)
    requires 0 <= j < |Protected(codes)| && Sees(Protected(codes)[j], req.path) && req.user.None?
    ensures AppDispatch(codes, req) == Redirect("/login")
  {
    ProtectedNeverPublic(codes, req.path, j);
    GateRedirects(codes, req);
  }

  /** With a user, a path other than the public ones is answered by the protected routes, or else handed to the static middleware. */
  lemma {:induction false} AuthenticatedScan(codes: StatusCodes, req: Request)
    requires !IsPublic(req.path) && req.user.Some?
    ensures AppDispatch(codes, req) ==
      if Scan(Protected(codes), req).Done? then Scan(Protected(codes), req).outcome else Static(req.path)
  {
    TableScan(codes, req);
    UnprotectedPasses(codes, req);
  }

  /** First match wins: with a user, the first protected route whose pattern matches the path decides the request. */
  lemma {:induction false} ProtectedRoute(codes: StatusCodes, req: Request, i: int)
    requires !IsPublic(req.path) && req.user.Some?
    requires 0 <= i < |Protected(codes)| && Sees(Protected(codes)[i], req.path)
    requires forall j :: 0 <= j < i ==> !Sees(Protected(codes)[j], req.path)
    ensures RunLayer(Protected(codes)[i], req).Done?
    ensures AppDispatch(codes, req) == RunLayer(Protected(codes)[i], req).outcome
  {
    AuthenticatedScan(codes, req);
    ProtectedStandard(codes);
    FirstMatchDecides(Protected(codes), req, i);
    ClosedLayerEnds(Protected(codes)[i], req);
  }

  /** The first matching protected route runs the first handler registered for the request's method. */
  lemma {:induction false} ProtectedRouteRuns(codes: StatusCodes, req: Request, i: int, params: Params, k: int)
    requires !IsPublic(req.path) && req.user.Some?
    requires 0 <= i < |Protected(codes)| && Match(Protected(codes)[i].pattern, req.path) == Some(params)
    requires forall j :: 0 <= j < i ==> !Sees(Protected(codes)[j], req.path)
    requires 0 <= k < |Protected(codes)[i].stack| - 1 && Protected(codes)[i].stack[k].filter == On(req.verb)
    requires forall j :: 0 <= j < k ==> Protected(codes)[i].stack[j].filter != On(req.verb)
    ensures RunHandler(Protected(codes)[i].stack[k].handler, req, params).Done?
    ensures AppDispatch(codes, req) == RunHandler(Protected(codes)[i].stack[k].handler, req, params).outcome
  {
    var l := Protected(codes)[i];
    ProtectedRoute(codes, req, i);
    ProtectedStandard(codes);
    StandardRuns(l.stack, codes, req, params, k);
  }

  /** A method that the first matching protected route does not register is refused with 405. */
  lemma {:induction false} ProtectedRouteRejects(codes: StatusCodes, req: Request, i: int)
    requires !IsPublic(req.path) && req.user.Some?
    requires 0 <= i < |Protected(codes)| && Sees(Protected(codes)[i], req.path)
    requires forall j :: 0 <= j < i ==> !Sees(Protected(codes)[j], req.path)
    requires forall k :: 0 <= k < |Protected(codes)[i].stack| - 1 ==> Protected(codes)[i].stack[k].filter != On(req.verb)
    ensures AppDispatch(codes, req) == Fail(codes.methodNotAllowed, NotSupported)
  {
    var l := Protected(codes)[i];
    ProtectedRoute(codes, req, i);
    ProtectedStandard(codes);
    StandardRejects(l.stack, codes, req, Match(l.pattern, req.path).value);
  }

  /**
   * The static middleware is handed exactly the logged-in requests whose path
   * is matched by no route pattern; such a request is never refused with 405.
   */
  lemma {:induction false} StaticFallback(codes: StatusCodes, req: Request)
    ensures AppDispatch(codes, req).Static? <==>
      && req.user.Some? && !IsPublic(req.path)
      && forall j :: 0 <= j < |Protected(codes)| ==> !Sees(Protected(codes)[j], req.path)
    ensures AppDispatch(codes, req).Static? ==> AppDispatch(codes, req) == Static(req.path)
  {
    var p := Protected(codes);
    if IsPublic(req.path) {
      TableScan(codes, req);
      if req.path == [] {
        RootScan(codes, req);
      } else if req.path == ["login"] {
        LoginScan(codes, req);
      } else {
        AccountLoginScan(codes, req);
      }
    } else if req.user.None? {
      GateRedirects(codes, req);
    } else {
      AuthenticatedScan(codes, req);
      ProtectedStandard(codes);
      NoMatchPasses(p, req);
      if Scan(p, req).Done? {
        DispatchFromSomeLayer(p, req);
        var i :| DecidedAt(p, req, i) && Scan(p, req) == RunLayer(p[i], req);
        StandardOutcomes(p[i].stack, codes, req, Match(p[i].pattern, req.path).value);
      }
    }
  }

  /**
   * The null branch of `returnUserObject` cannot be reached: the user object
   * is only ever sent behind the gate, and it is the session's user.
   */
  lemma {:induction false} NeverNullUser(codes: StatusCodes, req: Request)
    ensures AppDispatch(codes, req).UserJson? ==> req.user.Some? && AppDispatch(codes, req) == UserJson(req.user)
  {
    DispatchEchoesSessionUser(Table(codes), req);
    if req.path == [] {
      RootRedirects(codes, req);
    } else if req.path == ["login"] {
      LoginRoute(codes, req);
    } else if req.path == ["account", "login"] {
      AccountLoginRoute(codes, req);
    } else if req.user.None? {
      GateRedirects(codes, req);
    }
  }

  // ------------------------------------------------------------------
  // Particular requests

  /** A list of layers none of which sees the path passes the request on. */
  lemma {:induction false} PassesAll(layers: seq<Layer>, req: Request)
    requires forall l | l in layers :: !Sees(l, req.path)
    ensures Scan(layers, req).Next?
  {
    forall j | 0 <= j < |layers| ensures RunLayer(layers[j], req).Next? {
      assert layers[j] in layers;
    }
    ScanPasses(layers, req);
  }

  /** With a user, a request the account API ends is answered by it. */
  lemma {:induction false} DecidedByAccountApi(codes: StatusCodes, req: Request)
    requires !IsPublic(req.path) && req.user.Some? && Scan(AccountApi(codes), req).Done?
    ensures AppDispatch(codes, req) == Scan(AccountApi(codes), req).outcome
  {
    AuthenticatedScan(codes, req);
    ProtectedScan(codes, req);
  }

  /** With a user, a request the account API passes on and the record API ends is answered by the latter. */
  lemma {:induction false} DecidedByRecordApi(codes: StatusCodes, req: Request)
    requires !IsPublic(req.path) && req.user.Some?
    requires Scan(AccountApi(codes), req).Next? && Scan(RecordApi(codes), req).Done?
    ensures AppDispatch(codes, req) == Scan(RecordApi(codes), req).outcome
  {
    AuthenticatedScan(codes, req);
    ProtectedScan(codes, req);
  }

  /** With a user, a request every protected group passes on is handed to the static middleware. */
  lemma {:induction false} PassedByAllGroups(codes: StatusCodes, req: Request)
    requires !IsPublic(req.path) && req.user.Some?
    requires Scan(AccountApi(codes), req).Next? && Scan(RecordApi(codes), req).Next?
    requires Scan(ExportApi(codes), req).Next? && Scan(Pages(codes), req).Next?
    ensures AppDispatch(codes, req) == Static(req.path)
  {
    AuthenticatedScan(codes, req);
    ProtectedScan(codes, req);
  }

  /** A path under '/api/' that names no account resource passes the account API by. */
  lemma {:induction false} AccountApiIgnores(codes: StatusCodes, req: Request)
    requires |req.path| >= 2 && req.path[0] == "api" && req.path[1] != "account" && req.path[1] != "accounts"
    ensures Scan(AccountApi(codes), req).Next?
  {
    var a := AccountApi(codes);
    assert !Sees(a[0], req.path) && !Sees(a[1], req.path);
    assert !Sees(a[2], req.path) && !Sees(a[3], req.path);
    assert !Sees(a[4], req.path) && !Sees(a[5], req.path) && !Sees(a[6], req.path);
    PassesAll(a, req);
  }

  /** A path under '/api/' passes the export routes by. */
  lemma {:induction false} ExportApiIgnoresApi(codes: StatusCodes, req: Request)
    requires |req.path| >= 1 && req.path[0] == "api"
    ensures Scan(ExportApi(codes), req).Next?
  {
    PassesAll(ExportApi(codes), req);
  }

  /** A path under '/api/' passes the front-end pages by. */
  lemma {:induction false} PagesIgnoreApi(codes: StatusCodes, req: Request)
    requires |req.path| >= 1 && req.path[0] == "api"
    ensures Scan(Pages(codes), req).Next?
  {
    PassesAll(Pages(codes), req);
  }

  /** In the account API, GET '/user' reaches `returnUserObject`. */
  lemma {:induction false} AccountApiUser(codes: StatusCodes, req: Request)
    requires req.path == ["user"] && req.verb == Get && req.user.Some?
    ensures Scan(AccountApi(codes), req) == Done(UserJson(req.user))
  {
    var a := AccountApi(codes);
    assert !Sees(a[0], req.path);
    FirstMatchDecides(a, req, 1);
    assert Match(a[1].pattern, req.path) == Some(map[]);
  }

  /** In the account API, '/api/account/role' is taken by its own route before '/api/account/:username?'. */
  lemma {:induction false} AccountApiRole(codes: StatusCodes, req: Request)
    requires req.path == ["api", "account", "role"] && req.verb == Post
    ensures Match(AccountApi(codes)[6].pattern, req.path) == Some(map["username" := "role"])
    ensures Scan(AccountApi(codes), req) == Done(Invoke(Action(AuthenticationController, UpdateRole), map[]))
  {
    var a := AccountApi(codes);
    assert !Sees(a[0], req.path) && !Sees(a[1], req.path) && !Sees(a[2], req.path) && !Sees(a[3], req.path);
    FirstMatchDecides(a, req, 4);
    assert Match(a[4].pattern, req.path) == Some(map[]);
  }

  /** In the account API, GET '/api/account/password' meets the route that registers POST only. */
  lemma {:induction false} AccountApiPasswordGet(codes: StatusCodes, req: Request)
    requires req.path == ["api", "account", "password"] && req.verb == Get
    ensures Scan(AccountApi(codes), req) == Done(Fail(codes.methodNotAllowed, NotSupported))
  {
    var a := AccountApi(codes);
    assert !Sees(a[0], req.path) && !Sees(a[1], req.path);
    FirstMatchDecides(a, req, 2);
    assert Match(a[2].pattern, req.path) == Some(map[]);
    assert a[2].stack[1..] == [Reject(codes)];
    assert RunStack(a[2].stack[1..], req, map[]) == Done(Fail(codes.methodNotAllowed, NotSupported));
  }

  /** In the record API, GET on '/api/tutor/:id?' runs `getTutor`, with the id when there is one. */
  lemma {:induction false} RecordApiTutor(codes: StatusCodes, req: Request, id: string)
    requires req.path == ["api", "tutor"] || req.path == ["api", "tutor", id]
    requires req.verb == Get && id != ""
    ensures Scan(RecordApi(codes), req) ==
      Done(Invoke(Action(TutorController, GetTutor), if |req.path| == 2 then map[] else map["id" := id]))
  {
    var r := RecordApi(codes);
    FirstMatchDecides(r, req, 0);
    assert Match(r[0].pattern, req.path) == Some(if |req.path| == 2 then map[] else map["id" := id]);
  }

  /** No record-API route takes '/api/autocomplete/tutor' without a name. */
  lemma {:induction false} RecordApiIgnoresBareAutocomplete(codes: StatusCodes, req: Request)
    requires req.path == ["api", "autocomplete", "tutor"]
    ensures Scan(RecordApi(codes), req).Next?
  {
    var r := RecordApi(codes);
    assert req.path[..2] == ["api", "autocomplete"];
    assert !Sees(r[0], req.path) && !Sees(r[1], req.path) && !Sees(r[2], req.path);
    assert !Sees(r[3], req.path) && !Sees(r[4], req.path) && !Sees(r[5], req.path) && !Sees(r[6], req.path);
    PassesAll(r, req);
  }

  /** In the record API, GET '/api/autocomplete/tutor/:name' runs `TutorController.autocomplete`. */
  lemma {:induction false} RecordApiAutocomplete(codes: StatusCodes, req: Request, name: string)
    requires req.path == ["api", "autocomplete", "tutor", name] && name != "" && req.verb == Get
    ensures Scan(RecordApi(codes), req) == Done(Invoke(Action(TutorController, Autocomplete), map["name" := name]))
  {
    var r := RecordApi(codes);
    assert !Sees(r[0], req.path) && !Sees(r[1], req.path);
    FirstMatchDecides(r, req, 2);
    assert Match(r[2].pattern, req.path) == Some(map["name" := name]);
  }

  /** GET '/user' answers the session's user; without one the gate answers first. */
  lemma {:induction false} UserRoute(codes: StatusCodes, req: Request)
    requires req.path == ["user"] && req.verb == Get
    ensures AppDispatch(codes, req) == if req.user.None? then Redirect("/login") else UserJson(req.user)
  {
    if req.user.None? {
      GateRedirects(codes, req);
    } else {
      AccountApiUser(codes, req);
      DecidedByAccountApi(codes, req);
    }
  }

  /**
   * First match wins: POST '/api/account/role' runs `updateRole`, although
   * '/api/account/:username?', registered later, matches the path too.
   */
  lemma {:induction false} RoleBeforeUsername(codes: StatusCodes, req: Request)
    requires req.path == ["api", "account", "role"] && req.verb == Post && req.user.Some?
    ensures Match(AccountApi(codes)[6].pattern, req.path) == Some(map["username" := "role"])
    ensures AppDispatch(codes, req) == Invoke(Action(AuthenticationController, UpdateRole), map[])
  {
    AccountApiRole(codes, req);
    DecidedByAccountApi(codes, req);
  }

  /** GET '/api/account/password' is refused with 405: the route registers POST only. */
  lemma {:induction false} PasswordRejectsGet(codes: StatusCodes, req: Request)
    requires req.path == ["api", "account", "password"] && req.verb == Get && req.user.Some?
    ensures AppDispatch(codes, req) == Fail(codes.methodNotAllowed, NotSupported)
  {
    AccountApiPasswordGet(codes, req);
    DecidedByAccountApi(codes, req);
  }

  /** '/api/tutor/:id?' matches with and without the id: GET runs `getTutor` either way. */
  lemma {:induction false} TutorIdOptional(codes: StatusCodes, req: Request, id: string)
    requires req.path == ["api", "tutor"] || req.path == ["api", "tutor", id]
    requires req.verb == Get && req.user.Some? && id != ""
    ensures AppDispatch(codes, req) ==
      Invoke(Action(TutorController, GetTutor), if |req.path| == 2 then map[] else map["id" := id])
  {
    AccountApiIgnores(codes, req);
    RecordApiTutor(codes, req, id);
    DecidedByRecordApi(codes, req);
  }

  /**
   * '/api/autocomplete/tutor/:name' needs its name: without it no route
   * matches and the request is handed to the static middleware, whatever the method.
   */
  lemma {:induction false} AutocompleteNeedsName(codes: StatusCodes, req: Request)
    requires req.path == ["api", "autocomplete", "tutor"] && req.user.Some?
    ensures AppDispatch(codes, req) == Static(req.path)
  {
    AccountApiIgnores(codes, req);
    RecordApiIgnoresBareAutocomplete(codes, req);
    ExportApiIgnoresApi(codes, req);
    PagesIgnoreApi(codes, req);
    PassedByAllGroups(codes, req);
  }

  /** With its name, GET '/api/autocomplete/tutor/:name' runs `TutorController.autocomplete` with that name. */
  lemma {:induction false} AutocompleteWithName(codes: StatusCodes, req: Request, name: string)
    requires req.path == ["api", "autocomplete", "tutor", name] && name != ""
    requires req.verb == Get && req.user.Some?
    ensures AppDispatch(codes, req) == Invoke(Action(TutorController, Autocomplete), map["name" := name])
  {
    AccountApiIgnores(codes, req);
    RecordApiAutocomplete(codes, req, name);
    DecidedByRecordApi(codes, req);
  }
}
