# grug-analyzer: a Dafny model of the analyser's decision logic

grug-analyzer loads a Python module of some project so that an extractor can
inspect it (for example, list the routes of a web service). It does not run
the project's dependencies. While the module is loaded:

- an import interceptor replaces third-party imports with inert placeholders;
- an environment override answers `os.environ[...]` lookups from project code
  with a placeholder value instead of a `KeyError`;
- the load can be isolated in a worker process that the parent polls.

The repository holds three generations of this code: the current
`gruganalyzer/` tree and the older `gruganalyser/` and `grug-analyser/` trees.
This project models the decision logic of each generation, proves what each
promises, and proves how the generations relate.

Everything foreign is an input of the model:

- the real import and the spec lookup;
- the stack frames and `os._Environ.decodevalue`;
- the filesystem: the set of directories holding `__init__.py`, and whether
  the module file exists;
- the worker process and its queue: a trace of what each poll observes.

Modules:

- `Py`: the runtime values used throughout: exceptions, results, caller
  globals, module objects, and the interpreter (`sys.path`) as a class.
- `PyStr`: the `str` methods used (`startswith`, `removeprefix`,
  `removesuffix`, `replace`, `split(sep, 1)[0]`, `join`, `lower`, `'.' * n`),
  with the lemmas the other modules need.
- `Paths`: `pathlib.Path` as an absolute flag plus a component list. The
  parent of `/` is `/`.
- `MockImport` and `MockImportLegacy`: `safe_import`, split into a pure
  classification and its application to the original import. The "module with
  mocks" class reassignment is a flag on the module value.
- `MockEnviron` and `MockEnvironLegacy`: `mock_getitem`.
- `PackageBoundary` and `PackageBoundaryLegacy`: the two `find_package_boundary`
  loops, as methods proved against recursive specification functions.
- `Polling`: the poll loop that the three `ProcessRunner.run` versions share.
- `Runners`, `RunnersLegacy` and `RunnerRegistry`: the worker protocol,
  `RemoteException` pickling, the surfaced results, `PlainRunner`, and the
  registry of the oldest tree.
- `Loader` and `LoaderLegacy`: `analyse_module` and `run`.

## Model

| member | source | states |
|---|---|---|
| MockImport.Classify | gruganalyzer/mocking/mock_import.py:42-85 | The whole case table. A caller whose `__file__` is a string outside the prefix passes through; then a stdlib or whitelisted root name passes through untagged. For the remaining (intercepted) requests: a relative import is the tagged real import; a root with no spec is the real import followed by `ModuleNotFoundError`; a spec path that cannot be computed is that error; a spec path inside the prefix is the tagged real import. A placeholder, carrying the requested name, arises exactly when an intercepted absolute import has a spec path outside the prefix. |
| MockImport.SpecPath | gruganalyzer/mocking/mock_import.py:73-78 | The spec is located by its origin when there is one, else by the first search location. With neither an origin nor a location list the assertion fails (`AssertionError`); an empty list raises `IndexError`. |
| MockImport.SafeImport | gruganalyzer/mocking/mock_import.py:25-85 | Pass-through cases return the original import's result. A real module returned is the original's module, tagged only when intercepted. The result is `MagicMock(name=name)` exactly when an intercepted absolute import has a spec path outside the prefix. A missing spec ends in the original import's error, or else `ModuleNotFoundError`. A spec path that cannot be computed raises that error. |
| MockImport.Apply | gruganalyzer/mocking/mock_import.py:57-85 | A placeholder and a failure do not use the original import. The not-found branch raises the original import's error first, else `ModuleNotFoundError`. A real import returns the original's module, with the tag set when the decision tags, or propagates its error. |
| MockImport.RelativeImportIsTagged | gruganalyzer/mocking/mock_import.py:57-60 | A relative import from project code that is not stdlib or whitelisted returns the real module, tagged; a failing real import propagates. |
| MockImport.ProjectModuleIsTagged | gruganalyzer/mocking/mock_import.py:73-82 | A spec located inside the prefix (by origin, or by the first search location of a namespace package) gives the tagged real import. |
| MockImport.PlaceholderNeverImports | gruganalyzer/mocking/mock_import.py:84-85 | On the placeholder branch the result is `Mock(name)` whatever the original import would do: the real import is never run. |
| MockImport.ClassifiedByRootName | gruganalyzer/mocking/mock_import.py:50-55 | Two requests with the same caller, level and root name are classified alike, up to the name a placeholder or message carries. |
| MockImport.WhitelistOnlyUnblocks | gruganalyzer/mocking/mock_import.py:51-55 | Enlarging the whitelist never creates a placeholder. A whitelisted root name always passes through untagged. |
| MockImportLegacy.Decide | gruganalyser/mocking/mock_import.py:53-78 | A missing spec raises the "cant find module" error. A placeholder arises exactly when the found spec does not pass (stdlib name, no origin, whitelisted root) and its origin is outside the root dir; it carries the name and the spec. The tagged real import happens exactly when the origin is inside the root dir. |
| MockImportLegacy.Classify | gruganalyser/mocking/mock_import.py:40-53 | A string `__file__` outside the root dir passes through. Otherwise the decision rests on the spec of `'.' * level + name` looked up relative to the caller's package. With no globals, the package is None and the request is intercepted. |
| MockImportLegacy.SafeImport | gruganalyser/mocking/mock_import.py:23-78 | The full case table: pass-through, missing spec, lookup error, passing spec, tagged project module (or the real import's error when it fails), placeholder with spec. |
| MockImportLegacy.BlockedBranchesNeverImport | gruganalyser/mocking/mock_import.py:54-78 | When the decision is not a real import, the result does not depend on the original import. |
| MockImportLegacy.Repr | gruganalyser/mocking/mock_import.py:12-14 | A tagged module shows as "mocked<" + base repr + ">" (length, both ends and the middle); an untagged one shows its base repr. |
| MockEnviron.OriginalGetItem | gruganalyzer/mocking/mock_environ.py:8 | The unpatched lookup: the value for a present key, `KeyError(key)` for a missing one. |
| MockEnviron.MockGetItem | gruganalyzer/mocking/mock_environ.py:10-26 | A missing frame raises `ValueError`. A caller outside the prefix gets exactly the original lookup. A project caller gets the value, or the decoded `mocked_value` instead of `KeyError`. A caller without `__file__` gets `KeyError("__file__")`, and one whose `__file__` is not a string gets `AttributeError`. Any value returned is the environment's value or the decoded fallback. The environment is only read (a map argument). |
| MockEnviron.MockedOnlyForProjectCode | gruganalyzer/mocking/mock_environ.py:19-26 | On an unset variable, project code gets the fallback while outside code still gets `KeyError`; a set variable reads the same for both. |
| MockEnvironLegacy.MockGetItem | grug-analyser/mocking/mock_environ.py:9-25 | A missing frame raises `ValueError`. A caller whose `__package__` does not start with the project's root module name gets exactly the original lookup; one whose `__package__` does gets the value, or the decoded `b"__mocked__"` instead of `KeyError`. A caller without `__package__` gets `KeyError("__package__")`, and one whose `__package__` is not a string gets `AttributeError`. |
| MockEnvironLegacy.SameRuleAsCurrent | grug-analyser/mocking/mock_environ.py:18-25 | The older override equals the current one applied to `__package__` in place of `__file__`, with the fixed bytes as `mocked_value`. |
| PackageBoundary.StepUp | gruganalyzer/util.py:8-11 | One step up from a marked parent keeps the walk terminating and keeps the same ancestors. |
| PackageBoundary.BoundaryDepth | gruganalyzer/util.py:8-11 | The returned ancestor has no marker. Every inspected directory strictly below it has one. If the input's own directory lacks a marker, that directory is returned. |
| PackageBoundary.FindPackageBoundary | gruganalyzer/util.py:6-11 | A relative path fails the assertion. For an absolute path whose walk stops, the loop returns the nearest marker-less ancestor. |
| PackageBoundary.BoundaryIsNearestUnmarked | gruganalyzer/util.py:8-11 | Any depth that has no marker and has markers on every inspected directory below it is the one returned: the answer is unique. |
| PackageBoundaryLegacy.TopmostDepth | grug-analyser/util.py:6-9 | The returned path's parent has no marker. Every step up was taken because the parent had one. If the input's parent lacks a marker, the input itself is returned. |
| PackageBoundaryLegacy.FindPackageBoundary | grug-analyser/util.py:5-9 | The loop returns the topmost path (the input or an ancestor) whose parent has no marker. |
| PackageBoundaryLegacy.CurrentIsParentOfLegacy | grug-analyser/util.py:6-9 | The current walk returns the parent of what the older walk returns. |
| Polling.PollBound | gruganalyzer/runners/runners.py:73-77 | The bound is `max(1, n)`: at least one poll and at least `int(timeout / 0.2)`, equal to one of them. |
| Polling.TimesOutIffAllEmptyAlive | gruganalyzer/runners/runners.py:78-96 | The loop times out exactly when every poll within the bound finds the queue empty and the worker alive. |
| Polling.FirstTerminalDecides | gruganalyzer/runners/runners.py:78-93 | The first poll that is not "empty, worker alive" decides the outcome: a crash, the value, or the worker's error. |
| Polling.UnboundedNeverTimesOut | gruganalyzer/runners/runners.py:74-75 | Once some poll ends the loop, the outcome is never a timeout, and every longer bound gives the same outcome. |
| Polling.PollLoop | gruganalyzer/runners/runners.py:73-96 | It makes at least one poll and at most the bound. Every poll but the last was empty with the worker alive. A timeout happens only with a bound, after exactly that many polls. Otherwise the last poll decides the outcome. The bounded outcome equals the specification `OutcomeFrom`. |
| Runners.InheritedReduce | gruganalyzer/runners/runners.py:23-27 | The inherited pickle state holds only `(repr,)` and fails to rebuild with `TypeError`. |
| Runners.Rebuild | gruganalyzer/runners/runners.py:24-27 | Unpickling succeeds exactly for the argument tuple (text, exception), and rebuilds a `RemoteException` holding them; anything else fails with the missing-argument `TypeError`. |
| Runners.Reduce | gruganalyzer/runners/runners.py:29-30 | Pickling round-trips: rebuilding the reduced state gives back the same text and inner exception. |
| Runners.Wrap | gruganalyzer/runners/runners.py:54-67 | The worker posts one pair: `(result, None)` on success, or `(None, RemoteException)` carrying the original exception, whose own reduced form rebuilds. It posts nothing when a BaseException-only exception escapes. |
| Runners.ProcessRun | gruganalyzer/runners/runners.py:48-96 | A received value is returned. A received error re-raises the carried exception with the `RemoteException` as cause. An empty poll with a dead worker raises `ChildProcessError` with the OOM hint. Exhausting the bound raises `TimeoutError` "<name> Timed out after <timeout> seconds". With no timeout it never times out. |
| Runners.Surface | gruganalyzer/runners/runners.py:82-96 | A value is returned and only a value. A worker error re-raises the carried exception with the `RemoteException` as cause. A crash raises `ChildProcessError` with the OOM hint `from None`. A timeout raises `TimeoutError` with the "<name> Timed out after <timeout> seconds" text. No raise shows the `queue.Empty` context. |
| Runners.PlainRun | gruganalyzer/runners/runners.py:99-106 | The target's own value or exception, unchanged. |
| Runners.IsolatedAgreesWithInline | gruganalyzer/runners/runners.py:48-106 | When the worker's message arrives within the bound, the process runner returns what the plain runner returns, and raises the same exception with the remote traceback as cause. |
| Runners.RunAgreesWithInline | gruganalyzer/runners/runners.py:54-106 | When every message the worker posts is the target's wrapped result, a run whose first message arrives within the bound agrees with the plain runner: the same value, or the same exception with the remote traceback as cause. |
| RunnersLegacy.Wrap | gruganalyser/runners/runners.py:33-38 | The worker posts `(result, None)` or `(None, e)` with the raw exception. The same code is at grug-analyser/runners.py:50-55. |
| RunnersLegacy.ProcessRun | gruganalyser/runners/runners.py:27-67 | As the current loop, except that a worker error is raised as is, without a cause, and the crash shows the `queue.Empty` context. The same code is at grug-analyser/runners.py:44-84. |
| RunnersLegacy.Surface | gruganalyser/runners/runners.py:53-67 | A value is returned and only a value. A worker error is raised as is, without a cause. A crash raises `ChildProcessError` and is the only raise that shows the `queue.Empty` context. A timeout raises `TimeoutError` with the timeout text. |
| RunnersLegacy.IsolatedAgreesWithInline | gruganalyser/runners/runners.py:27-77 | When the worker's message arrives within the bound, the older process runner gives exactly the plain runner's result. |
| RunnersLegacy.RunAgreesWithInline | gruganalyser/runners/runners.py:33-76 | When every message the worker posts is the target's wrapped result, a run whose first message arrives within the bound gives exactly the plain runner's result. |
| RunnersLegacy.CurrentAddsCause | gruganalyser/runners/runners.py:53-62 | On the same poll outcome, current and older runners return the same value or raise the same exception. They differ only in the cause attached to a worker error and in the crash's context. |
| RunnerRegistry.Registry.InitSubclass | grug-analyser/runners.py:32-34 | The class is stored under the key exactly when its lower-cased name starts with the key; otherwise `AssertionError` is raised and the registry is unchanged. Key consistency is kept. |
| RunnerRegistry.Registry.constructor | grug-analyser/runners.py:20-94 | After the module body, the registry maps "process" to `ProcessRunner` and "plain" to `PlainRunner`, consistently. |
| RunnerRegistry.Registry.Lookup | gruganalyser/run.py:65 | `registry[kind]`: the class, or `KeyError(kind)`. |
| RunnerRegistry.Instantiate | grug-analyser/runners.py:38-46 | `ProcessRunner` takes exactly the timeout and `PlainRunner` no argument; any other argument count raises `TypeError`. |
| Loader.DottedPath | gruganalyzer/run.py:30-36 | The module name holds no "/" and is no longer than the resolved path; for a module file below the boundary it is the dotted path of its components (`Loader.DottedPathOfModuleFile`). |
| Loader.PackageRoot | gruganalyzer/run.py:37 | The package root is a prefix of the dotted path with no "." in it, followed in the dotted path by "." when shorter. |
| Loader.BoundaryOf | gruganalyzer/run.py:28-29 | A given boundary is used as is. Otherwise the boundary is the text of the nearest marker-less ancestor: absolute, without `__init__.py`, and an ancestor of the module file. |
| Loader.ProjectPrefix | gruganalyzer/run.py:42 | The corrected prefix starts with the boundary and ends with "/" + root, with exactly one "/" between them. It equals the prefix as written whenever the boundary does not end with "/". |
| Loader.InterceptorPrefixAsWritten | gruganalyzer/run.py:42 | The prefix as the source writes it: the boundary, "/", then the package root, whatever the boundary ends with. |
| Loader.ContextFor | gruganalyzer/run.py:30-57 | The import runs with the boundary appended to `sys.path`. Both interceptors get the same prefix, boundary + "/" + the dotted path's package root, as run.py:42 and :49 write it. It starts with the boundary, and it is the project prefix whenever the boundary does not end with "/". |
| Loader.Analysis | gruganalyzer/run.py:25-60 | A missing file raises `FileNotFoundError` before anything else. Otherwise an import error propagates, or the extractor's result on the tagged module is returned unchanged. |
| Loader.AnalyseModule | gruganalyzer/run.py:18-60 | `sys.path` afterwards equals its value before, also when the import fails. The result is `Analysis` of the old `sys.path`, with the boundary from `find_package_boundary` when none is given. |
| Loader.Run | gruganalyzer/run.py:63-79 | With the plain runner, the result is `analyse_module`'s and `sys.path` is restored. With a process runner, the result is the surfaced poll outcome of the worker; with no timeout, that is the first terminal poll's outcome. When the worker posts what `analyse_module` gives and its first message arrives within the bound, the process runner agrees with the plain runner up to the attached cause. |
| Loader.ModuleNameOfRelative | gruganalyzer/run.py:34-37 | Removing ".py" and turning "/" into "." gives `c1.….cn`, whose package root is `c1`. |
| Loader.FileUnderBoundary | gruganalyzer/run.py:30-33 | Stripping the boundary and one "/" leaves `c1/…/cn.py`. The file lies under the project prefix. The prefix as written is correct below the root and matches no file of the package at the root. |
| Loader.DottedPathOfModuleFile | gruganalyzer/run.py:30-49 | For `B/c1/…/cn.py` with names free of "/" and ".", the dotted path is `c1.….cn`. The package root is `c1`. The file starts with the project prefix. The prefix as written fails exactly at the root boundary. |
| Loader.AsWrittenPrefixMissesPackageAtRoot | gruganalyzer/run.py:42-49 | For `/app/main.py` under boundary "/", the prefix as written, and the one `Loader.ContextFor` hands both interceptors, is "//app", so an import made by that very file is treated as coming from outside the project. |
| LoaderLegacy.ContextFor | gruganalyser/run.py:25-47 | The import runs with the root dir appended to `sys.path`, and the root dir itself is both interceptors' prefix. |
| LoaderLegacy.Analysis | gruganalyser/run.py:23-53 | An import error propagates, or the extractor's result on the tagged module is returned. There is no existence check. |
| LoaderLegacy.AnalyseModule | gruganalyser/run.py:17-53 | `sys.path` is restored, also on failure. The result is `Analysis` of the old `sys.path`. |
| LoaderLegacy.Run | gruganalyser/run.py:56-71 | An unknown kind raises `KeyError`, and wrong runner arguments raise `TypeError`. A plain runner gives `analyse_module`'s result. A process runner gives the older loop's surfaced outcome; when the worker posts what `analyse_module` gives and its first message arrives within the bound, that is exactly the plain runner's result. |
| LoaderLegacy.SameDottedPathAsCurrent | gruganalyser/run.py:25-31 | Both generations derive the same dotted path and search path from the same boundary. The current prefix extends the older one. |

## Left out

- The real import machinery (`builtins.__import__`, `PathFinder.find_spec`, `importlib.util.find_spec`, `importlib.import_module`) and `sys.stdlib_module_names` are parameters: the original import, the spec lookup and the stdlib set.
- `MagicMock` placeholders are the constructor `Mock`. Their absorb-any-attribute behaviour is not modelled.
- `res.__class__ = ...` changes the module object in place, and every alias sees the change. The model returns a tagged copy (a flag on the module value), so aliasing is not captured.
- Installing and removing the patches (`unittest.mock.patch`) is not modelled. The import function handed to `analyse_module` stands for the import running with both interceptors installed, and it receives their prefixes.
- `inspect.currentframe` is the `Frames` input, and `os._Environ.decodevalue` is the `decode` parameter.
- MockEnviron.MockGetItem: the `ValueError` message is the fixed text without the frame reprs. A non-string `__file__` is modelled as `None` (`AttributeError`); a bytes `__file__`, which would raise `TypeError`, is not distinguished.
- MockImportLegacy.Classify: a non-string `__package__` is passed to the spec lookup as `None`.
- Loader.Run, LoaderLegacy.Run: the worker is assumed to start with the caller's `sys.path` and the same import and extractor; what it posts is tied to `analyse_module` only through that assumption.
- The worker process, the queue, `is_alive` and the 0.2-second waits are the trace `observe`. The race in which a worker posts and dies between two polls is not modelled. The worker is not joined or killed after a timeout.
- `int(timeout / 0.2)` and `str(timeout)` are float computations; the model takes them as the inputs `Timeout.polls` and `Timeout.text`.
- `format_exception` (the traceback text) is the `render` parameter.
- Runners.Wrap, Runners.Reduce: the inner exception is assumed to pickle. It pickles through `BaseException.__reduce__`, which fails for an exception class whose constructor takes other arguments (as `Runners.InheritedReduce` shows for `RemoteException`); the message then never reaches the parent, which sees a crash or an error raised by `q.get`.
- Runners.Rebuild reports every malformed argument tuple with the missing-argument `TypeError`. Python would accept two arguments of the wrong kinds.
- `Path.resolve`, `Path.exists` and `is_absolute` are inputs: the resolved path is absolute, existence is a boolean, and marker directories are a set.
- `find_package_boundary` loops forever when every inspected directory up to and including `/` has a marker. The methods require that the walk stops (`WalkStops`).
- gruganalyser/util.py is not part of this model. The older loader takes its boundary finder as a parameter.
- gruganalyser/runners/__init__.py (the older loader's registry) is not part of this model. `LoaderLegacy.Run` uses the registry of grug-analyser/runners.py.
- RunnerRegistry.Instantiate: the `TypeError` messages are shortened.
- `allow_uninstalled`, `is_mocked_module` and the `mocked_value` default have no code to model. As written, gruganalyzer/run.py:44 passes `allow_uninstalled`, which `build_mock_import` does not take, and run.py:48-50 omit the required `mocked_value` of `build_mock_getitem`, so both calls raise `TypeError`. The model describes the two calls as the interceptors' signatures intend them, with the prefix as written.
- grug-analyser/run.py, runtime-analyser.py and the example target code and extractors are wiring and demos.
- `str.lower` is modelled on ASCII letters only.

## Findings

| source | as written | input that shows it | evidently intended | confidence | as-written member | corrected member |
|---|---|---|---|---|---|---|
| gruganalyzer/run.py:42 | the interceptor prefix is `f"{project_boundary}/{package_root}"` | a package `app` directly under `/` (`/app/__init__.py`, none in `/`), module `/app/main.py`: the boundary is "/" and the prefix "//app", which no file of the package starts with, so every import and environment lookup from the package passes through unintercepted | boundary and package root joined by exactly one "/" ("/app") | high; not executed | Loader.AsWrittenPrefixMissesPackageAtRoot | Loader.DottedPathOfModuleFile |

The loader members (`Loader.ContextFor`, `Loader.Analysis`, `Loader.AnalyseModule`, `Loader.Run`) model the prefix as written. The corrected prefix is `Loader.ProjectPrefix`; `Loader.ContextFor` states that the two agree whenever the boundary does not end with "/", and `Loader.DottedPathOfModuleFile` proves that every module file of the package lies under the corrected prefix.
