/** The import interceptor of the current analyser (`build_mock_import` /
    `safe_import`). For one `__import__` call from code being loaded it decides
    among: the real import unchanged, the real import tagged "module with
    mocks", an inert placeholder (the real import never runs), or an error.
    The real import and `PathFinder.find_spec` are parameters. */
module MockImport {
  import opened Py
  import opened PyStr

  /** The arguments of one `__import__` call; `fromlist` is only forwarded. */
  datatype ImportRequest = ImportRequest(name: string, globals: Option<Globals>, fromlist: seq<string>, level: int)

  /** What a spec lookup reports: the origin file, or for a namespace package
      no origin and the package's search locations. */
  datatype ModuleSpec = ModuleSpec(name: string, origin: Option<string>, searchLocations: Option<seq<string>>)

  /** What `safe_import` does with a request; the tag is a flag. */
  datatype Decision =
    | RealImport(tagWithMocks: bool)
    | RealImportThenNotFound(error: Exception)
    | Placeholder(name: string)
    | Fail(error: Exception)

  /** What the importing code receives. */
  datatype Imported = Real(loaded: Module) | Mock(name: string)

  const NotFoundHint: string :=
    "This is likely not an issue of the analyser but an import system "
    + "misunderstanding. Check that you use relative imports or have the "
    + "correct sys.path"

  function NotFoundError(name: string, level: int): Exception {
    Exception(ModuleNotFoundError, "cant find module '" + Dots(level) + name + "'. " + NotFoundHint)
  }

  /** `globals.get("__file__")`, or no file when there are no globals. */
  function CallerFile(globals: Option<Globals>): Attr {
    if globals.None? then Missing else globals.value.file
  }

  /** The caller's `__file__` is a string outside the project prefix. The test
      is a raw string prefix test: "/p/app" also matches "/p/app2/x.py". */
  predicate FromOutside(req: ImportRequest, prefix: string) {
    CallerFile(req.globals).Str? && !StartsWith(CallerFile(req.globals).text, prefix)
  }

  /** `name.split(".", 1)[0]`. */
  function RootName(name: string): string {
    Before(name, '.')
  }

  /** The path a spec is located by: its origin, else the first search
      location of a namespace package (an assertion guards the list, and
      indexing an empty one raises). */
  function SpecPath(spec: ModuleSpec): (r: Result<string>)
    ensures spec.origin.Some? ==> r == Ok(spec.origin.value)
    ensures spec.origin.None? ==>
              (r.Ok? <==> spec.searchLocations.Some? && |spec.searchLocations.value| > 0)
              && (r.Ok? ==> r.value == spec.searchLocations.value[0])
    ensures r.Err? ==> r.error.kind == (if spec.searchLocations.None? then AssertionError else IndexError)
  {
    if spec.origin.Some? then Ok(spec.origin.value)
    else if spec.searchLocations.None? then Err(Exception(AssertionError, ""))
    else if |spec.searchLocations.value| == 0 then Err(Exception(IndexError, "list index out of range"))
    else Ok(spec.searchLocations.value[0])
  }

  /** The request is one `safe_import` acts on: made by project code (or by
      code without a string `__file__`) for a root name that is neither stdlib
      nor whitelisted. */
  predicate Intercepted(prefix: string, whitelist: set<string>, stdlib: set<string>, req: ImportRequest) {
    !FromOutside(req, prefix) && RootName(req.name) !in stdlib && RootName(req.name) !in whitelist
  }

  /** The requests answered by a placeholder: intercepted absolute imports
      whose root is found at a path outside the project prefix. */
  predicate Blocked(prefix: string, whitelist: set<string>, stdlib: set<string>,
                    findSpec: string -> Option<ModuleSpec>, req: ImportRequest) {
    Intercepted(prefix, whitelist, stdlib, req) && req.level <= 0
    && findSpec(RootName(req.name)).Some?
    && SpecPath(findSpec(RootName(req.name)).value).Ok?
    && !StartsWith(SpecPath(findSpec(RootName(req.name)).value).value, prefix)
  }

  /** The classification `safe_import` performs before acting. */
  function Classify(prefix: string, whitelist: set<string>, stdlib: set<string>,
                    findSpec: string -> Option<ModuleSpec>, req: ImportRequest): (d: Decision)
    ensures FromOutside(req, prefix) ==> d == RealImport(false)
    ensures !FromOutside(req, prefix) && (RootName(req.name) in stdlib || RootName(req.name) in whitelist)
            ==> d == RealImport(false)
    ensures d.Placeholder? ==> d.name == req.name && req.level <= 0
    ensures d.Placeholder? || d.RealImportThenNotFound? || d.Fail? || d == RealImport(true)
            ==> !FromOutside(req, prefix) && RootName(req.name) !in stdlib && RootName(req.name) !in whitelist
    ensures findSpec(RootName(req.name)).None? ==> !d.Placeholder? && !d.Fail?
    ensures d.Placeholder? <==> Blocked(prefix, whitelist, stdlib, findSpec, req)
    ensures Intercepted(prefix, whitelist, stdlib, req) && req.level > 0 ==> d == RealImport(true)
    ensures Intercepted(prefix, whitelist, stdlib, req) && req.level <= 0 && findSpec(RootName(req.name)).None?
            ==> d == RealImportThenNotFound(NotFoundError(req.name, req.level))
    ensures Intercepted(prefix, whitelist, stdlib, req) && req.level <= 0 && findSpec(RootName(req.name)).Some? ==>
              var path := SpecPath(findSpec(RootName(req.name)).value);
              (path.Err? ==> d == Fail(path.error))
              && (path.Ok? && StartsWith(path.value, prefix) ==> d == RealImport(true))
  {
    if FromOutside(req, prefix) then RealImport(false)
    else
      var root := RootName(req.name);
      if root in stdlib || root in whitelist then RealImport(false)
      else if req.level > 0 then RealImport(true)
      else match findSpec(root)
        case None => RealImportThenNotFound(NotFoundError(req.name, req.level))
        case Some(spec) =>
          match SpecPath(spec)
          case Err(e) => Fail(e)
          case Ok(path) => if StartsWith(path, prefix) then RealImport(true) else Placeholder(req.name)
  }

  /** The original import's result as the caller receives it. */
  function Lift(original: Result<Module>): Result<Imported> {
    match original
    case Ok(m) => Ok(Real(m))
    case Err(e) => Err(e)
  }

  /** Carries out a decision given what the original import would do. */
  function Apply(d: Decision, original: Result<Module>): (r: Result<Imported>)
    ensures d.Placeholder? ==> r == Ok(Mock(d.name))
    ensures d.Fail? ==> r == Err(d.error)
    ensures d.RealImportThenNotFound? ==> r.Err? && r.error == (if original.Err? then original.error else d.error)
    ensures d.RealImport? ==>
              (r.Ok? <==> original.Ok?) && (original.Err? ==> r == Err(original.error))
              && (original.Ok? ==> r == Ok(Real(original.value.(withMocks := original.value.withMocks || d.tagWithMocks))))
  {
    match d
    case RealImport(tag) =>
      if tag && original.Ok? then Ok(Real(original.value.(withMocks := true))) else Lift(original)
    case RealImportThenNotFound(e) => if original.Err? then Err(original.error) else Err(e)
    case Placeholder(name) => Ok(Mock(name))
    case Fail(e) => Err(e)
  }

  /** `safe_import(name, globals, locals, fromlist, level)`; `original` is the
      import function that was installed before it. */
  function SafeImport(prefix: string, whitelist: set<string>, stdlib: set<string>,
                      findSpec: string -> Option<ModuleSpec>, original: ImportRequest -> Result<Module>,
                      req: ImportRequest): (r: Result<Imported>)
    ensures FromOutside(req, prefix) || RootName(req.name) in stdlib || RootName(req.name) in whitelist
            ==> r == Lift(original(req))
    ensures r.Ok? && r.value.Real? ==>
              original(req).Ok? && r.value.loaded in {original(req).value, original(req).value.(withMocks := true)}
    ensures r.Ok? && r.value.Real? && r.value.loaded != original(req).value ==>
              !FromOutside(req, prefix) && RootName(req.name) !in stdlib && RootName(req.name) !in whitelist
              && r.value.loaded.withMocks
    ensures r.Ok? && r.value.Mock? <==> Blocked(prefix, whitelist, stdlib, findSpec, req)
    ensures Blocked(prefix, whitelist, stdlib, findSpec, req) ==> r == Ok(Mock(req.name))
    ensures Intercepted(prefix, whitelist, stdlib, req) && req.level <= 0 && findSpec(RootName(req.name)).None?
            ==> r.Err? && r.error == (if original(req).Err? then original(req).error else NotFoundError(req.name, req.level))
    ensures Intercepted(prefix, whitelist, stdlib, req) && req.level <= 0 && findSpec(RootName(req.name)).Some?
            && SpecPath(findSpec(RootName(req.name)).value).Err?
            ==> r == Err(SpecPath(findSpec(RootName(req.name)).value).error)
  {
    Apply(Classify(prefix, whitelist, stdlib, findSpec, req), original(req))
  }

  /** A relative import from project code that is not stdlib or whitelisted
      returns the real module, tagged. */
  lemma RelativeImportIsTagged(prefix: string, whitelist: set<string>, stdlib: set<string>,
                               findSpec: string -> Option<ModuleSpec>, original: ImportRequest -> Result<Module>,
                               req: ImportRequest)
    requires !FromOutside(req, prefix) && RootName(req.name) !in stdlib && RootName(req.name) !in whitelist
    requires req.level > 0
    ensures original(req).Ok? ==>
              SafeImport(prefix, whitelist, stdlib, findSpec, original, req) == Ok(Real(original(req).value.(withMocks := true)))
    ensures original(req).Err? ==> SafeImport(prefix, whitelist, stdlib, findSpec, original, req) == Lift(original(req))
  {
  }

  /** A module located inside the project prefix (by origin, or by the first
      search location of a namespace package) is imported for real and tagged,
      never replaced. */
  lemma ProjectModuleIsTagged(prefix: string, whitelist: set<string>, stdlib: set<string>,
                              findSpec: string -> Option<ModuleSpec>, req: ImportRequest)
    requires !FromOutside(req, prefix) && RootName(req.name) !in stdlib && RootName(req.name) !in whitelist
    requires findSpec(RootName(req.name)).Some?
    requires SpecPath(findSpec(RootName(req.name)).value).Ok?
    requires StartsWith(SpecPath(findSpec(RootName(req.name)).value).value, prefix)
    ensures Classify(prefix, whitelist, stdlib, findSpec, req) == RealImport(true)
  {
  }

  /** On the placeholder branch the real import is never run: the result is
      the same whatever the original import would have done. */
  lemma PlaceholderNeverImports(prefix: string, whitelist: set<string>, stdlib: set<string>,
                                findSpec: string -> Option<ModuleSpec>,
                                original1: ImportRequest -> Result<Module>, original2: ImportRequest -> Result<Module>,
                                req: ImportRequest)
    requires Classify(prefix, whitelist, stdlib, findSpec, req).Placeholder?
    ensures SafeImport(prefix, whitelist, stdlib, findSpec, original1, req)
            == SafeImport(prefix, whitelist, stdlib, findSpec, original2, req)
            == Ok(Mock(req.name))
  {
  }

  /** Classification looks only at the root name: two requests with the same
      caller, level and root name are classified alike (up to the name that a
      placeholder or an error message carries). */
  lemma ClassifiedByRootName(prefix: string, whitelist: set<string>, stdlib: set<string>,
                             findSpec: string -> Option<ModuleSpec>, req1: ImportRequest, req2: ImportRequest)
    requires req1.globals == req2.globals && req1.level == req2.level
    requires RootName(req1.name) == RootName(req2.name)
    ensures var d1, d2 := Classify(prefix, whitelist, stdlib, findSpec, req1), Classify(prefix, whitelist, stdlib, findSpec, req2);
            (d1.RealImport? ==> d2 == d1)
            && (d1.Fail? ==> d2 == d1)
            && (d1.Placeholder? ==> d2 == Placeholder(req2.name))
            && (d1.RealImportThenNotFound? ==> d2 == RealImportThenNotFound(NotFoundError(req2.name, req2.level)))
  {
  }

  /** Whitelisting more names never creates a placeholder: whatever is
      blocked under the larger whitelist is blocked under the smaller one. */
  lemma WhitelistOnlyUnblocks(prefix: string, small: set<string>, large: set<string>, stdlib: set<string>,
                              findSpec: string -> Option<ModuleSpec>, req: ImportRequest)
    requires small <= large
    ensures Classify(prefix, large, stdlib, findSpec, req).Placeholder?
            ==> Classify(prefix, small, stdlib, findSpec, req).Placeholder?
    ensures RootName(req.name) in large ==> Classify(prefix, large, stdlib, findSpec, req) == RealImport(false)
  {
  }
}
