/** The import interceptor of the older analyser tree. It looks up the spec of
    the full requested name relative to the caller's package, imports for real
    anything whose spec has no origin, tags project modules `MockedModule`, and
    attaches the found spec to a placeholder. */
module MockImportLegacy {
  import opened Py
  import opened PyStr
  import MockImport

  type ImportRequest = MockImport.ImportRequest
  type ModuleSpec = MockImport.ModuleSpec

  /** What `importlib.util.find_spec(name, package)` reports. */
  datatype SpecLookup = Found(spec: ModuleSpec) | NotFound | LookupRaised(error: Exception)

  /** What `safe_import` does with a request; the tag is a flag. */
  datatype Decision =
    | RealImport(tagMocked: bool)
    | Placeholder(name: string, spec: ModuleSpec)
    | Fail(error: Exception)

  /** What the importing code receives; a placeholder carries the spec it stands for. */
  datatype Imported = Real(loaded: Module) | Mock(name: string, spec: ModuleSpec)

  /** `globals.get("__package__")`, or None when there are no globals. */
  function PackageOf(globals: Option<Globals>): Option<string> {
    if globals.Some? && globals.value.package.Str? then Some(globals.value.package.text) else None
  }

  /** The name handed to `find_spec`: `'.' * level + name`. */
  function LookupName(req: ImportRequest): string {
    Dots(req.level) + req.name
  }

  function PackageText(package: Option<string>): string {
    if package.Some? then package.value else "None"
  }

  function NotFoundError(req: ImportRequest, rootDir: string): Exception {
    Exception(ModuleNotFoundError,
      "cant find module '" + LookupName(req) + "' for package = '" + PackageText(PackageOf(req.globals)) + "'. "
      + "This is likely not an issue of the analyser but an absolute import. "
      + "Use relative imports because from this tool's perspective all code "
      + "is in submodules of the package in '" + rootDir + "'")
  }

  /** The imports that go through untouched once a spec is found: a stdlib
      name, a spec without origin, or a whitelisted root name. */
  predicate PassesOnSpec(spec: ModuleSpec, whitelist: set<string>, stdlib: set<string>) {
    spec.name in stdlib || spec.origin.None? || MockImport.RootName(spec.name) in whitelist
  }

  /** The decision once the spec lookup has been made. */
  function Decide(rootDir: string, whitelist: set<string>, stdlib: set<string>,
                  lookup: SpecLookup, req: ImportRequest): (d: Decision)
    ensures lookup.NotFound? ==> d == Fail(NotFoundError(req, rootDir))
    ensures d.Placeholder? <==>
              lookup.Found? && !PassesOnSpec(lookup.spec, whitelist, stdlib)
              && !StartsWith(lookup.spec.origin.value, rootDir)
    ensures d.Placeholder? ==> d.name == req.name && d.spec == lookup.spec
    ensures d == RealImport(true) <==>
              lookup.Found? && !PassesOnSpec(lookup.spec, whitelist, stdlib)
              && StartsWith(lookup.spec.origin.value, rootDir)
  {
    match lookup
    case LookupRaised(e) => Fail(e)
    case NotFound => Fail(NotFoundError(req, rootDir))
    case Found(spec) =>
      if PassesOnSpec(spec, whitelist, stdlib) then RealImport(false)
      else if StartsWith(spec.origin.value, rootDir) then RealImport(true)
      else Placeholder(req.name, spec)
  }

  /** The classification `safe_import` performs before acting. */
  function Classify(rootDir: string, whitelist: set<string>, stdlib: set<string>,
                    findSpec: (string, Option<string>) -> SpecLookup, req: ImportRequest): (d: Decision)
    ensures MockImport.FromOutside(req, rootDir) ==> d == RealImport(false)
    ensures !MockImport.FromOutside(req, rootDir) ==>
              d == Decide(rootDir, whitelist, stdlib, findSpec(LookupName(req), PackageOf(req.globals)), req)
    ensures req.globals.None? ==>
              d == Decide(rootDir, whitelist, stdlib, findSpec(LookupName(req), None), req)
  {
    if MockImport.FromOutside(req, rootDir) then RealImport(false)
    else Decide(rootDir, whitelist, stdlib, findSpec(LookupName(req), PackageOf(req.globals)), req)
  }

  function Lift(original: Result<Module>): Result<Imported> {
    match original
    case Ok(m) => Ok(Real(m))
    case Err(e) => Err(e)
  }

  function Apply(d: Decision, original: Result<Module>): Result<Imported> {
    match d
    case RealImport(tag) =>
      if tag && original.Ok? then Ok(Real(original.value.(withMocks := true))) else Lift(original)
    case Placeholder(name, spec) => Ok(Mock(name, spec))
    case Fail(e) => Err(e)
  }

  /** `safe_import(name, globals, locals, fromlist, level)`. */
  function SafeImport(rootDir: string, whitelist: set<string>, stdlib: set<string>,
                      findSpec: (string, Option<string>) -> SpecLookup, original: ImportRequest -> Result<Module>,
                      req: ImportRequest): (r: Result<Imported>)
    ensures MockImport.FromOutside(req, rootDir) ==> r == Lift(original(req))
    ensures var lookup := findSpec(LookupName(req), PackageOf(req.globals));
            !MockImport.FromOutside(req, rootDir) ==>
              (lookup.NotFound? ==> r == Err(NotFoundError(req, rootDir)))
              && (lookup.LookupRaised? ==> r == Err(lookup.error))
              && (lookup.Found? && PassesOnSpec(lookup.spec, whitelist, stdlib) ==> r == Lift(original(req)))
              && (lookup.Found? && !PassesOnSpec(lookup.spec, whitelist, stdlib)
                  && StartsWith(lookup.spec.origin.value, rootDir)
                  ==> (original(req).Ok? ==> r == Ok(Real(original(req).value.(withMocks := true))))
                      && (original(req).Err? ==> r == Err(original(req).error)))
              && (lookup.Found? && !PassesOnSpec(lookup.spec, whitelist, stdlib)
                  && !StartsWith(lookup.spec.origin.value, rootDir)
                  ==> r == Ok(Mock(req.name, lookup.spec)))
  {
    Apply(Classify(rootDir, whitelist, stdlib, findSpec, req), original(req))
  }

  /** A missing spec and the placeholder branch never run the real import:
      their result is the same whatever the original import would do. */
  lemma BlockedBranchesNeverImport(rootDir: string, whitelist: set<string>, stdlib: set<string>,
                                   findSpec: (string, Option<string>) -> SpecLookup,
                                   original1: ImportRequest -> Result<Module>, original2: ImportRequest -> Result<Module>,
                                   req: ImportRequest)
    requires !Classify(rootDir, whitelist, stdlib, findSpec, req).RealImport?
    ensures SafeImport(rootDir, whitelist, stdlib, findSpec, original1, req)
            == SafeImport(rootDir, whitelist, stdlib, findSpec, original2, req)
  {
  }

  /** `MockedModule.__repr__`: a tagged module shows as "mocked<...>" around
      the ordinary module repr. */
  function Repr(m: Module, baseRepr: string): (s: string)
    ensures !m.withMocks ==> s == baseRepr
    ensures m.withMocks ==> |s| == |baseRepr| + 8 && StartsWith(s, "mocked<") && EndsWith(s, ">") && s[7..|s| - 1] == baseRepr
  {
    if m.withMocks then "mocked<" + baseRepr + ">" else baseRepr
  }
}
