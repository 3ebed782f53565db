/** `analyse_module` and `run` of the current analyser. `analyse_module`
    checks that the file exists, finds the package boundary, derives the
    dotted module name and the package root from the file path, imports the
    module with the boundary appended to `sys.path` (restored afterwards) and
    both interceptors built with the project prefix, tags the root module and
    hands it to the extractor. The import (with its interceptors installed)
    and the extractor are parameters. */
module Loader {
  import opened Py
  import opened PyStr
  import opened Paths
  import opened PackageBoundary
  import opened Polling
  import opened Runners
  import MockImport

  /** The module name for a resolved file: drop the boundary prefix, one
      leading "/", one trailing ".py", and turn every "/" into ".". */
  function DottedPath(resolved: string, boundary: string): (r: string)
    ensures '/' !in r && |r| <= |resolved|
  {
    Replace(RemoveSuffix(RemovePrefix(RemovePrefix(resolved, boundary), "/"), ".py"), '/', '.')
  }

  /** `module_dotted_path.split(".", 1)[0]`. */
  function PackageRoot(dotted: string): (r: string)
    ensures StartsWith(dotted, r) && '.' !in r
    ensures |r| < |dotted| ==> dotted[|r|] == '.'
  {
    Before(dotted, '.')
  }

  /** The interceptor prefix as the source builds it, `f"{boundary}/{root}"`:
      with the boundary "/" it starts with "//". */
  function InterceptorPrefixAsWritten(boundary: string, root: string): (r: string)
    ensures StartsWith(r, boundary + "/") && EndsWith(r, "/" + root)
    ensures |r| == |boundary| + |root| + 1
  {
    boundary + "/" + root
  }

  /** The prefix of the files under the package root: boundary and root
      joined by exactly one "/". */
  function ProjectPrefix(boundary: string, root: string): (r: string)
    ensures StartsWith(r, boundary) && EndsWith(r, "/" + root)
    ensures |r| == |boundary| + |root| + (if EndsWith(boundary, "/") then 0 else 1)
    ensures !EndsWith(boundary, "/") ==> r == InterceptorPrefixAsWritten(boundary, root)
  {
    if EndsWith(boundary, "/") then
      assert (boundary + root)[|boundary + root| - |"/" + root|..] == boundary[|boundary| - 1..] + root;
      boundary + root
    else
      boundary + "/" + root
  }

  /** What the import runs under: the search path, the module name, and the
      prefix each of the two interceptors was built with. */
  datatype LoadContext = LoadContext(searchPath: seq<string>, dottedPath: string, importPrefix: string, environPrefix: string)

  /** The given boundary, or `str(find_package_boundary(resolved))`. */
  function BoundaryOf(resolved: Path, boundaryArg: Option<string>, markers: set<Path>): (r: string)
    requires resolved.absolute && (boundaryArg.None? ==> WalkStops(resolved, markers))
    ensures boundaryArg.Some? ==> r == boundaryArg.value
    ensures boundaryArg.None? ==>
              var b := NearestUnmarked(resolved, markers);
              r == Text(b) && b.absolute && b !in markers && b.parts <= resolved.parts
  {
    if boundaryArg.Some? then boundaryArg.value else Text(NearestUnmarked(resolved, markers))
  }

  /** The context of the import for a resolved file under a boundary, with
      both interceptors built with the prefix as the source writes it. Below
      the root directory that is the project prefix; with the boundary "/" it
      is not (see `AsWrittenPrefixMissesPackageAtRoot`). */
  function ContextFor(sysPath: seq<string>, resolvedText: string, boundary: string): (c: LoadContext)
    ensures c.searchPath == sysPath + [boundary]
    ensures c.dottedPath == DottedPath(resolvedText, boundary)
    ensures c.importPrefix == c.environPrefix == InterceptorPrefixAsWritten(boundary, PackageRoot(c.dottedPath))
    ensures StartsWith(c.importPrefix, boundary)
    ensures !EndsWith(boundary, "/") ==> c.importPrefix == ProjectPrefix(boundary, PackageRoot(c.dottedPath))
  {
    var dotted := DottedPath(resolvedText, boundary);
    var prefix := InterceptorPrefixAsWritten(boundary, PackageRoot(dotted));
    assert prefix[..|boundary|] == boundary;
    LoadContext(sysPath + [boundary], dotted, prefix, prefix)
  }

  function MissingFile(resolved: Path): Exception {
    Exception(FileNotFoundError, "File " + Text(resolved) + " does not exist")
  }

  /** The result of `analyse_module` when `sys.path` is `sysPath`. A missing
      file fails before anything else happens; otherwise the import's error
      propagates, or the extractor sees the imported module, tagged. */
  function Analysis<T>(sysPath: seq<string>, resolved: Path, fileExists: bool, boundaryArg: Option<string>,
                       markers: set<Path>, importModule: LoadContext -> Result<Module>,
                       extractor: Module -> Result<T>): (r: Result<T>)
    requires resolved.absolute && (fileExists && boundaryArg.None? ==> WalkStops(resolved, markers))
    ensures !fileExists ==> r == Err(MissingFile(resolved))
    ensures fileExists ==>
              var ctx := ContextFor(sysPath, Text(resolved), BoundaryOf(resolved, boundaryArg, markers));
              (importModule(ctx).Err? ==> r == Err(importModule(ctx).error))
              && (importModule(ctx).Ok? ==> r == extractor(importModule(ctx).value.(withMocks := true)))
  {
    if !fileExists then Err(MissingFile(resolved))
    else
      var ctx := ContextFor(sysPath, Text(resolved), BoundaryOf(resolved, boundaryArg, markers));
      match importModule(ctx)
      case Err(e) => Err(e)
      case Ok(m) => extractor(m.(withMocks := true))
  }

  /** `analyse_module(module_path, whitelist, extractor, project_boundary)`
      for the resolved path; `fileExists` is `resolved_module.exists()`. */
  method AnalyseModule<T>(interp: Interpreter, resolved: Path, fileExists: bool, boundaryArg: Option<string>,
                          markers: set<Path>, importModule: LoadContext -> Result<Module>,
                          extractor: Module -> Result<T>) returns (r: Result<T>)
    modifies interp
    requires resolved.absolute && (fileExists && boundaryArg.None? ==> WalkStops(resolved, markers))
    ensures interp.sysPath == old(interp.sysPath)
    ensures r == Analysis(old(interp.sysPath), resolved, fileExists, boundaryArg, markers, importModule, extractor)
  {
    if !fileExists {
      return Err(MissingFile(resolved));
    }
    var boundary: string;
    if boundaryArg.None? {
      var found := FindPackageBoundary(resolved, markers);
      boundary := Text(found.value);
    } else {
      boundary := boundaryArg.value;
    }
    var dotted := DottedPath(Text(resolved), boundary);
    var packageRoot := PackageRoot(dotted);
    var prefix := InterceptorPrefixAsWritten(boundary, packageRoot);
    var originalSysPath := interp.sysPath;
    interp.sysPath := interp.sysPath + [boundary];
    var imported := importModule(LoadContext(interp.sysPath, dotted, prefix, prefix));
    interp.sysPath := originalSysPath;
    if imported.Err? {
      return Err(imported.error);
    }
    var m := imported.value.(withMocks := true);
    r := extractor(m);
  }

  /** The worker runs `analyse_module` with the caller's arguments and
      `sys.path`: every message it posts is that call's result, wrapped. A
      boundary walk that never stops means the worker never posts. */
  ghost predicate WorkerPostsAnalysis<T>(observe: nat -> Poll<T, RemoteException>, render: Exception -> string,
                                         sysPath: seq<string>, resolved: Path, fileExists: bool,
                                         boundaryArg: Option<string>, markers: set<Path>,
                                         importModule: LoadContext -> Result<Module>, extractor: Module -> Result<T>)
    requires resolved.absolute
  {
    forall k: nat :: observe(k).Received? ==>
      (fileExists && boundaryArg.None? ==> WalkStops(resolved, markers))
      && Wrap(Analysis(sysPath, resolved, fileExists, boundaryArg, markers, importModule, extractor), render)
         == Some(observe(k).msg)
  }

  /** `run(runner=..., module_path=..., ...)`: delegates `analyse_module` to
      the runner. In a process runner the module is loaded in the worker, whose
      answers the parent sees as `observe`; the caller's `sys.path` is not
      touched there. */
  method Run<T>(interp: Interpreter, runner: Runner, observe: nat -> Poll<T, RemoteException>,
                render: Exception -> string, resolved: Path, fileExists: bool, boundaryArg: Option<string>,
                markers: set<Path>, importModule: LoadContext -> Result<Module>, extractor: Module -> Result<T>)
    returns (r: RunResult<T>)
    modifies interp
    requires resolved.absolute
    requires runner.PlainRunner? && fileExists && boundaryArg.None? ==> WalkStops(resolved, markers)
    requires runner == ProcessRunner(None) ==> WorkerAnswers(observe)
    requires runner.ProcessRunner? ==>
               WorkerPostsAnalysis(observe, render, interp.sysPath, resolved, fileExists, boundaryArg, markers,
                                   importModule, extractor)
    ensures interp.sysPath == old(interp.sysPath)
    ensures runner.PlainRunner? ==>
              r == PlainRun(Analysis(old(interp.sysPath), resolved, fileExists, boundaryArg, markers, importModule, extractor))
    ensures runner.ProcessRunner? && runner.timeout.Some? ==>
              r == Surface(OutcomeFrom(observe, 0, PollBound(runner.timeout.value.polls)), "analyse_module", runner.timeout)
    ensures runner == ProcessRunner(None) ==>
              forall k: nat :: Terminal(observe(k)) ==> r == Surface(OutcomeFrom(observe, 0, k + 1), "analyse_module", None)
    ensures runner.ProcessRunner? ==>
              forall k: nat :: FirstAnswer(observe, k) && (runner.timeout.Some? ==> k < PollBound(runner.timeout.value.polls))
                ==> (fileExists && boundaryArg.None? ==> WalkStops(resolved, markers))
                    && AgreesWithInline(r, Analysis(old(interp.sysPath), resolved, fileExists, boundaryArg, markers,
                                                    importModule, extractor), render)
  {
    if runner.PlainRunner? {
      var a := AnalyseModule(interp, resolved, fileExists, boundaryArg, markers, importModule, extractor);
      r := PlainRun(a);
    } else {
      var polls;
      r, polls := ProcessRun("analyse_module", runner.timeout, observe);
      if runner.timeout.None? {
        forall k: nat | Terminal(observe(k))
          ensures r == Surface(OutcomeFrom(observe, 0, k + 1), "analyse_module", None)
        {
          FirstTerminalDecides(observe, 0, polls - 1, k + 1);
        }
      }
      if k0: nat :| observe(k0).Received? {
        var target := Analysis(interp.sysPath, resolved, fileExists, boundaryArg, markers, importModule, extractor);
        RunAgreesWithInline(target, render, observe, "analyse_module", runner.timeout, r);
      }
    }
  }

  /** The components of a module file `B/c1/…/cn.py`: the boundary's
      components, then the package path with ".py" on its last name. */
  function ModuleFile(bs: seq<string>, cs: seq<string>): seq<string>
    requires |cs| > 0
  {
    bs + cs[..|cs| - 1] + [cs[|cs| - 1] + ".py"]
  }

  /** For a file `B/c1/…/cn.py` whose names hold no "/" or ".", the dotted
      path is `c1.….cn`, the package root is `c1`, and the file lies under
      the project prefix. The prefix as written agrees with it below the
      root directory, and at the root (`B` = "/") it matches no file of the
      package. */
  lemma DottedPathOfModuleFile(bs: seq<string>, cs: seq<string>)
    requires |cs| > 0
    requires WellFormed(Path(true, bs))
    requires forall k :: 0 <= k < |cs| ==> NonEmptyWithout(cs[k], '/') && '.' !in cs[k]
    ensures var file := Text(Path(true, ModuleFile(bs, cs)));
            var boundary := Text(Path(true, bs));
            DottedPath(file, boundary) == Join(cs, ".")
            && PackageRoot(DottedPath(file, boundary)) == cs[0]
            && StartsWith(file, ProjectPrefix(boundary, cs[0]))
            && (bs != [] ==> InterceptorPrefixAsWritten(boundary, cs[0]) == ProjectPrefix(boundary, cs[0]))
            && (bs == [] ==> !StartsWith(file, InterceptorPrefixAsWritten(boundary, cs[0])))
  {
    var rel := RelativeText(cs);
    var file := Text(Path(true, ModuleFile(bs, cs)));
    var boundary := Text(Path(true, bs));
    FileUnderBoundary(bs, cs);
    var stripped := RemovePrefix(RemovePrefix(file, boundary), "/");
    assert stripped == rel;
    ModuleNameOfRelative(cs);
    assert DottedPath(file, boundary) == Replace(RemoveSuffix(rel, ".py"), '/', '.');
  }

  /** The package path of a module file, as text: `c1/…/cn.py`. */
  function RelativeText(cs: seq<string>): string
    requires |cs| > 0
  {
    Join(cs[..|cs| - 1] + [cs[|cs| - 1] + ".py"], "/")
  }

  /** The relative text starts with the package root and not with "/". */
  lemma RelativeTextStart(cs: seq<string>)
    requires |cs| > 0 && NonEmptyWithout(cs[0], '/')
    ensures var rel := RelativeText(cs);
            StartsWith(rel, cs[0]) && rel[0] != '/' && rel[0] == cs[0][0]
  {
    var csPy := cs[..|cs| - 1] + [cs[|cs| - 1] + ".py"];
    JoinStartsWithFirst(csPy, "/");
    assert StartsWith(csPy[0], cs[0]);
    var rel := RelativeText(cs);
    assert rel[..|cs[0]|] == csPy[0][..|cs[0]|];
    assert cs[0][0] in cs[0];
  }

  /** Removing ".py" and turning "/" into "." gives the dotted name, whose
      first part is the package root. */
  lemma ModuleNameOfRelative(cs: seq<string>)
    requires |cs| > 0
    requires forall k :: 0 <= k < |cs| ==> NonEmptyWithout(cs[k], '/') && '.' !in cs[k]
    ensures Replace(RemoveSuffix(RelativeText(cs), ".py"), '/', '.') == Join(cs, ".")
    ensures PackageRoot(Join(cs, ".")) == cs[0]
  {
    JoinExtendLast(cs, "/", ".py");
    assert RemoveSuffix(RelativeText(cs), ".py") == Join(cs, "/");
    ReplaceJoin(cs);
    BeforeJoin(cs);
  }

  /** The file's text is the boundary's text, one "/", and the relative text;
      the boundary ends with "/" only when it is the root. */
  lemma FileUnderBoundary(bs: seq<string>, cs: seq<string>)
    requires |cs| > 0 && NonEmptyWithout(cs[0], '/')
    requires WellFormed(Path(true, bs))
    ensures var file := Text(Path(true, ModuleFile(bs, cs)));
            var boundary := Text(Path(true, bs));
            var rel := RelativeText(cs);
            RemovePrefix(RemovePrefix(file, boundary), "/") == rel
            && StartsWith(file, ProjectPrefix(boundary, cs[0]))
            && (bs != [] ==> InterceptorPrefixAsWritten(boundary, cs[0]) == ProjectPrefix(boundary, cs[0]))
            && (bs == [] ==> !StartsWith(file, InterceptorPrefixAsWritten(boundary, cs[0])))
  {
    RelativeTextStart(cs);
    var boundary := Text(Path(true, bs));
    if bs == [] {
      assert boundary == "/";
      FileAtRoot(cs);
      assert ProjectPrefix(boundary, cs[0]) == "/" + cs[0];
      assert InterceptorPrefixAsWritten(boundary, cs[0]) == "//" + cs[0];
    } else {
      FileBelowRoot(bs, cs);
      assert ProjectPrefix(boundary, cs[0]) == boundary + "/" + cs[0];
    }
  }

  lemma FileAtRoot(cs: seq<string>)
    requires |cs| > 0 && NonEmptyWithout(cs[0], '/')
    requires StartsWith(RelativeText(cs), cs[0]) && RelativeText(cs)[0] != '/'
    ensures var file := Text(Path(true, ModuleFile([], cs)));
            var rel := RelativeText(cs);
            file == "/" + rel
            && RemovePrefix(RemovePrefix(file, "/"), "/") == rel
            && StartsWith(file, "/" + cs[0])
            && !StartsWith(file, "//" + cs[0])
  {
    var csPy := cs[..|cs| - 1] + [cs[|cs| - 1] + ".py"];
    var rel := RelativeText(cs);
    assert ModuleFile([], cs) == csPy;
    var file := Text(Path(true, csPy));
    assert file == "/" + rel;
    StartsWithAppend("/", rel, cs[0]);
    assert file[1] == rel[0];
  }

  lemma FileBelowRoot(bs: seq<string>, cs: seq<string>)
    requires |cs| > 0 && NonEmptyWithout(cs[0], '/')
    requires bs != [] && WellFormed(Path(true, bs))
    requires StartsWith(RelativeText(cs), cs[0]) && RelativeText(cs)[0] != '/'
    ensures var file := Text(Path(true, ModuleFile(bs, cs)));
            var boundary := Text(Path(true, bs));
            var rel := RelativeText(cs);
            !EndsWith(boundary, "/")
            && RemovePrefix(RemovePrefix(file, boundary), "/") == rel
            && StartsWith(file, boundary + "/" + cs[0])
  {
    var csPy := cs[..|cs| - 1] + [cs[|cs| - 1] + ".py"];
    var rel := RelativeText(cs);
    assert ModuleFile(bs, cs) == bs + csPy;
    var file := Text(Path(true, bs + csPy));
    var boundary := Text(Path(true, bs));
    JoinAppend(bs, csPy, "/");
    assert Join(bs + csPy, "/") == Join(bs, "/") + "/" + rel;
    assert file == "/" + (Join(bs, "/") + "/" + rel);
    assert boundary == "/" + Join(bs, "/");
    assert file == boundary + ("/" + rel);
    assert RemovePrefix(file, boundary) == "/" + rel;
    NoTrailingSlash(bs);
    StartsWithAppend(boundary + "/", rel, cs[0]);
    assert file == (boundary + "/") + rel;
  }

  /** A boundary below the root does not end with "/". */
  lemma NoTrailingSlash(bs: seq<string>)
    requires bs != [] && WellFormed(Path(true, bs))
    ensures !EndsWith(Text(Path(true, bs)), "/")
  {
    JoinEndsWithLast(bs, "/");
    var b := bs[|bs| - 1];
    var boundary := Text(Path(true, bs));
    assert b[|b| - 1] in b;
    assert boundary[|boundary| - 1] == b[|b| - 1];
  }

  /** `/app/main.py` under the boundary "/" is the module `app.main` of the
      package `app`. */
  lemma AppMainUnderRoot()
    ensures DottedPath("/app/main.py", "/") == "app.main"
    ensures PackageRoot("app.main") == "app"
  {
    assert RemovePrefix("/app/main.py", "/") == "app/main.py";
    assert "app/main.py"[..1][0] != "/"[0];
    assert RemoveSuffix("app/main.py", ".py") == "app/main";
    var dotted := Replace("app/main", '/', '.');
    assert dotted[3] == '.';
    assert dotted == "app.main";
    BeforeConcat("app", '.', "main");
    assert "app" + ['.'] + "main" == "app.main";
  }

  /** The input that shows the doubled slash: a package `app` directly under
      "/" gets the prefix "//app", so an import made by its own `main.py` is
      taken for one from outside the project and is never intercepted. */
  lemma AsWrittenPrefixMissesPackageAtRoot()
    ensures var file := "/app/main.py";
            var root := PackageRoot(DottedPath(file, "/"));
            var req := MockImport.ImportRequest("requests", Some(Globals(Str(file), Str("app"))), [], 0);
            DottedPath(file, "/") == "app.main"
            && root == "app"
            && InterceptorPrefixAsWritten("/", root) == "//app"
            && ContextFor([], file, "/").importPrefix == ContextFor([], file, "/").environPrefix == "//app"
            && MockImport.FromOutside(req, InterceptorPrefixAsWritten("/", root))
            && !MockImport.FromOutside(req, ProjectPrefix("/", root))
  {
    AppMainUnderRoot();
    assert ProjectPrefix("/", "app") == "/app";
    var file := "/app/main.py";
    assert file[..4] == "/app";
    assert file[1] != "//app"[1];
  }
}

/** `analyse_module` and `run` of the older analyser: no existence check, the
    root directory itself is the interceptors' prefix, and `run` instantiates
    the runner class registered under a key. */
module LoaderLegacy {
  import opened Py
  import opened PyStr
  import opened Paths
  import opened Polling
  import opened Runners
  import RunnersLegacy
  import opened RunnerRegistry
  import Loader

  /** The context of the import: the root directory appended to the search
      path, and the root directory as both interceptors' prefix. */
  function ContextFor(sysPath: seq<string>, resolvedText: string, rootDir: string): (c: Loader.LoadContext)
    ensures c.searchPath == sysPath + [rootDir]
    ensures c.importPrefix == c.environPrefix == rootDir
    ensures c.dottedPath == Loader.DottedPath(resolvedText, rootDir)
  {
    Loader.LoadContext(sysPath + [rootDir], Loader.DottedPath(resolvedText, rootDir), rootDir, rootDir)
  }

  /** The given root directory, or the boundary `findBoundary` reports. */
  function RootDirOf(resolved: Path, rootArg: Option<string>, findBoundary: Path -> string): string {
    if rootArg.Some? then rootArg.value else findBoundary(resolved)
  }

  /** The result of `analyse_module` when `sys.path` is `sysPath`. */
  function Analysis<T>(sysPath: seq<string>, resolved: Path, rootArg: Option<string>, findBoundary: Path -> string,
                       importModule: Loader.LoadContext -> Result<Module>, extractor: Module -> Result<T>): (r: Result<T>)
    ensures var ctx := ContextFor(sysPath, Text(resolved), RootDirOf(resolved, rootArg, findBoundary));
            (importModule(ctx).Err? ==> r == Err(importModule(ctx).error))
            && (importModule(ctx).Ok? ==> r == extractor(importModule(ctx).value.(withMocks := true)))
  {
    var ctx := ContextFor(sysPath, Text(resolved), RootDirOf(resolved, rootArg, findBoundary));
    match importModule(ctx)
    case Err(e) => Err(e)
    case Ok(m) => extractor(m.(withMocks := true))
  }

  /** `analyse_module(module_path, whitelist, extractor, project_root_dir)`. */
  method AnalyseModule<T>(interp: Interpreter, resolved: Path, rootArg: Option<string>, findBoundary: Path -> string,
                          importModule: Loader.LoadContext -> Result<Module>, extractor: Module -> Result<T>)
    returns (r: Result<T>)
    modifies interp
    ensures interp.sysPath == old(interp.sysPath)
    ensures r == Analysis(old(interp.sysPath), resolved, rootArg, findBoundary, importModule, extractor)
  {
    var rootDir := if rootArg.Some? then rootArg.value else findBoundary(resolved);
    var dotted := Loader.DottedPath(Text(resolved), rootDir);
    var originalSysPath := interp.sysPath;
    interp.sysPath := interp.sysPath + [rootDir];
    var imported := importModule(Loader.LoadContext(interp.sysPath, dotted, rootDir, rootDir));
    interp.sysPath := originalSysPath;
    if imported.Err? {
      return Err(imported.error);
    }
    r := extractor(imported.value.(withMocks := true));
  }

  /** The worker runs `analyse_module` with the caller's arguments and
      `sys.path`: every message it posts is that call's result, wrapped. */
  ghost predicate WorkerPostsAnalysis<T>(observe: nat -> Poll<T, Exception>, sysPath: seq<string>, resolved: Path,
                                         rootArg: Option<string>, findBoundary: Path -> string,
                                         importModule: Loader.LoadContext -> Result<Module>,
                                         extractor: Module -> Result<T>)
  {
    forall k: nat :: observe(k).Received? ==>
      RunnersLegacy.Wrap(Analysis(sysPath, resolved, rootArg, findBoundary, importModule, extractor))
      == Some(observe(k).msg)
  }

  /** `run(runner_kind, module_path, whitelist, extractor, project_root_dir,
      *runner_args, **runner_kwargs)`: looks the class up in the registry,
      instantiates it with the runner arguments and runs `analyse_module` in
      it. `args` stands for both the positional and the keyword runner
      arguments; the callers in the repository pass only `timeout=None`. */
  method Run<T>(interp: Interpreter, registry: Registry, kind: string, args: seq<Option<Timeout>>,
                observe: nat -> Poll<T, Exception>, resolved: Path, rootArg: Option<string>,
                findBoundary: Path -> string, importModule: Loader.LoadContext -> Result<Module>,
                extractor: Module -> Result<T>)
    returns (r: RunResult<T>)
    modifies interp
    requires registry.Lookup(kind) == Ok(ProcessRunnerClass) && args == [None] ==> WorkerAnswers(observe)
    requires registry.Lookup(kind) == Ok(ProcessRunnerClass) ==>
               WorkerPostsAnalysis(observe, interp.sysPath, resolved, rootArg, findBoundary, importModule, extractor)
    ensures interp.sysPath == old(interp.sysPath)
    ensures registry.Lookup(kind).Err? ==> r == Raise(Raised(Exception(KeyError, kind), None, false))
    ensures registry.Lookup(kind).Ok? && Instantiate(registry.Lookup(kind).value, args).Err? ==>
              r == Raise(Raised(Instantiate(registry.Lookup(kind).value, args).error, None, false))
    ensures registry.Lookup(kind).Ok? && Instantiate(registry.Lookup(kind).value, args) == Ok(PlainRunner) ==>
              r == PlainRun(Analysis(old(interp.sysPath), resolved, rootArg, findBoundary, importModule, extractor))
    ensures registry.Lookup(kind).Ok? && args == [None] && registry.Lookup(kind).value.ProcessRunnerClass? ==>
              forall k: nat :: Terminal(observe(k)) ==>
                r == RunnersLegacy.Surface(OutcomeFrom(observe, 0, k + 1), "analyse_module", None)
    ensures registry.Lookup(kind).Ok? && |args| == 1 && args[0].Some? && registry.Lookup(kind).value.ProcessRunnerClass? ==>
              r == RunnersLegacy.Surface(OutcomeFrom(observe, 0, PollBound(args[0].value.polls)), "analyse_module", args[0])
    ensures registry.Lookup(kind) == Ok(ProcessRunnerClass) && |args| == 1 ==>
              forall k: nat :: FirstAnswer(observe, k) && (args[0].Some? ==> k < PollBound(args[0].value.polls)) ==>
                r == PlainRun(Analysis(old(interp.sysPath), resolved, rootArg, findBoundary, importModule, extractor))
  {
    var cls := registry.Lookup(kind);
    if cls.Err? {
      return Raise(Raised(cls.error, None, false));
    }
    var runner := Instantiate(cls.value, args);
    if runner.Err? {
      return Raise(Raised(runner.error, None, false));
    }
    match runner.value {
      case PlainRunner =>
        var a := AnalyseModule(interp, resolved, rootArg, findBoundary, importModule, extractor);
        r := PlainRun(a);
      case ProcessRunner(timeout) =>
        var polls;
        r, polls := RunnersLegacy.ProcessRun("analyse_module", timeout, observe);
        if timeout.None? {
          forall k: nat | Terminal(observe(k))
            ensures r == RunnersLegacy.Surface(OutcomeFrom(observe, 0, k + 1), "analyse_module", None)
          {
            FirstTerminalDecides(observe, 0, polls - 1, k + 1);
          }
        }
        var target := Analysis(interp.sysPath, resolved, rootArg, findBoundary, importModule, extractor);
        RunnersLegacy.RunAgreesWithInline(target, observe, "analyse_module", timeout, r);
    }
  }

  /** Both versions derive the module name by the same steps; they differ in
      the interceptors' prefix (the root directory here, boundary plus package
      root there) and in checking that the file exists. */
  lemma SameDottedPathAsCurrent(sysPath: seq<string>, resolvedText: string, boundary: string)
    ensures ContextFor(sysPath, resolvedText, boundary).dottedPath
            == Loader.ContextFor(sysPath, resolvedText, boundary).dottedPath
    ensures ContextFor(sysPath, resolvedText, boundary).searchPath
            == Loader.ContextFor(sysPath, resolvedText, boundary).searchPath
    ensures StartsWith(Loader.ContextFor(sysPath, resolvedText, boundary).importPrefix,
                       ContextFor(sysPath, resolvedText, boundary).importPrefix)
  {
  }
}
