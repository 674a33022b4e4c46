/**
 * The parts of Express's routing that the route table of app/lib/routes.js
 * relies on, stated as assumptions about the library: request methods, route
 * path patterns with at most one trailing named parameter, and how a pattern
 * matches a request path.
 *
 * A request path is the list of its '/'-separated segments: "/" is [],
 * "/api/tutor/7" is ["api", "tutor", "7"]. Matching is exact and
 * case-sensitive; URL decoding and trailing-slash tolerance are not modelled.
 */
module Express {

  datatype Option<+T> = None | Some(value: T)

  /** An HTTP request method; `Other` stands for a verb not listed, and never holds one of the listed verbs. */
  datatype Method = Get | Post | Put | Delete | Patch | Head | Options | Other(verb: string)

  /** The method filter of one handler on a route: `.get(h)` registers `On(Get)`, `.all(h)` registers `All`. */
  datatype MethodFilter = On(verb: Method) | All

  predicate Admits(f: MethodFilter, m: Method)
  {
    f.All? || f.verb == m
  }

  /** The optional trailing parameter of a pattern: none, `:name?` or `:name`. */
  datatype Param = NoParam | Optional(name: string) | Required(name: string)

  /**
   * A route path pattern: literal segments followed by at most one named
   * parameter (`Path`), or the catch-all `'*'` (`Wildcard`).
   */
  datatype Pattern = Path(fixed: seq<string>, param: Param) | Wildcard

  /** Route parameters as Express puts them on `req.params`. */
  type Params = map<string, string>

  /** Whether `arg` is a value the parameter slot of `param` can take (a segment is never empty). */
  predicate Fits(param: Param, arg: Option<string>)
  {
    match param
    case NoParam => arg.None?
    case Optional(_) => arg.None? || arg.value != ""
    case Required(_) => arg.Some? && arg.value != ""
  }

  /** The request path that `p` describes when its parameter slot is filled by `arg`. */
  function Expand(p: Pattern, arg: Option<string>): (path: seq<string>)
    requires p.Path?
    ensures |path| == |p.fixed| + (if arg.Some? then 1 else 0)
    ensures path[..|p.fixed|] == p.fixed
  {
    p.fixed + (if arg.Some? then [arg.value] else [])
  }

  /** The parameters Express binds when `arg` fills the slot of `param`. */
  function Bind(param: Param, arg: Option<string>): (bound: Params)
  {
    if arg.Some? && !param.NoParam? then map[param.name := arg.value] else map[]
  }

  /**
   * Matches a pattern against a request path and yields the bound parameters:
   * the path must be the pattern's literal segments, followed by one
   * nonempty segment when the pattern has a parameter (which an optional
   * parameter may go without). `'*'` matches every path.
   */
  function Match(p: Pattern, path: seq<string>): (r: Option<Params>)
    ensures p.Wildcard? ==> r.Some?
  {
    match p
    case Wildcard => Some(map[])
    case Path(fixed, param) =>
      if path == fixed then
        if param.Required? then None else Some(map[])
      else if |path| == |fixed| + 1 && path[..|fixed|] == fixed && path[|fixed|] != "" && !param.NoParam? then
        Some(map[param.name := path[|fixed|]])
      else
        None
  }

  /**
   * What a match means: a `Path` pattern matches exactly the paths it expands
   * to with a fitting argument, and binds that argument.
   */
  lemma {:induction false} MatchMeaning(p: Pattern, path: seq<string>)
    requires p.Path?
    ensures Match(p, path).Some? <==> exists arg :: Fits(p.param, arg) && path == Expand(p, arg)
    ensures Match(p, path).Some? ==>
      exists arg :: Fits(p.param, arg) && path == Expand(p, arg) && Match(p, path).value == Bind(p.param, arg)
  {
    var fixed := p.fixed;
    if path == fixed {
      var none: Option<string> := None;
      assert path == Expand(p, none);
    } else if |path| == |fixed| + 1 && path[..|fixed|] == fixed && path[|fixed|] != "" && !p.param.NoParam? {
      var arg := Some(path[|fixed|]);
      assert path == Expand(p, arg);
    }
  }

  /** Round trip: a pattern matches every path it expands to, binding the argument it was given. */
  lemma {:induction false} MatchExpand(p: Pattern, arg: Option<string>)
    requires p.Path? && Fits(p.param, arg)
    ensures Match(p, Expand(p, arg)) == Some(Bind(p.param, arg))
  {
    var path := Expand(p, arg);
    if arg.Some? {
      assert path != p.fixed;
      assert path[|p.fixed|] == arg.value;
    } else {
      assert path == p.fixed;
    }
  }
}
