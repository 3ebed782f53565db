/** The environment-lookup override of the current analyser
    (`build_mock_getitem` / `mock_getitem`): a lookup made by project code,
    recognised by the caller's `__file__`, gets `mocked_value` instead of a
    `KeyError`; every other caller gets the original lookup. The environment
    is a map it only reads; the stack frames are an input. */
module MockEnviron {
  import opened Py
  import opened PyStr

  /** What `inspect.currentframe()` and its `f_back` give. */
  datatype Frames = NoFrame | NoCallerFrame | CallerFrame(callerGlobals: Globals)

  /** `os._Environ.__getitem__` before patching. */
  function OriginalGetItem(env: map<string, string>, key: string): (r: Result<string>)
    ensures key in env ==> r == Ok(env[key])
    ensures key !in env ==> r == Err(Exception(KeyError, key))
  {
    if key in env then Ok(env[key]) else Err(Exception(KeyError, key))
  }

  const NoFrameMessage: string := "no stack frame information available or it is corrupted"

  /** `f_globals["__file__"].startswith(prefix)` on the caller's globals:
      a missing `__file__` raises `KeyError`, a non-string one has no
      `startswith`. */
  function CallerInProject(callerGlobals: Globals, prefix: string): Result<bool> {
    match callerGlobals.file
    case Missing => Err(Exception(KeyError, "__file__"))
    case NonStr => Err(Exception(AttributeError, "'NoneType' object has no attribute 'startswith'"))
    case Str(f) => Ok(StartsWith(f, prefix))
  }

  /** `mock_getitem(self, key)`; `decode` is `self.decodevalue`. */
  function MockGetItem(prefix: string, mockedValue: Bytes, decode: Bytes -> string,
                       frames: Frames, env: map<string, string>, key: string): (r: Result<string>)
    ensures !frames.CallerFrame? ==> r.Err? && r.error.kind == ValueError
    ensures frames.CallerFrame? && frames.callerGlobals.file.Str?
            && !StartsWith(frames.callerGlobals.file.text, prefix)
            ==> r == OriginalGetItem(env, key)
    ensures frames.CallerFrame? && frames.callerGlobals.file.Str?
            && StartsWith(frames.callerGlobals.file.text, prefix)
            ==> r == Ok(if key in env then env[key] else decode(mockedValue))
    ensures frames.CallerFrame? && frames.callerGlobals.file.Missing? ==> r == Err(Exception(KeyError, "__file__"))
    ensures frames.CallerFrame? && frames.callerGlobals.file.NonStr? ==> r.Err? && r.error.kind == AttributeError
    ensures r.Ok? ==> r.value == (if key in env then env[key] else decode(mockedValue))
  {
    match frames
    case NoFrame => Err(Exception(ValueError, NoFrameMessage))
    case NoCallerFrame => Err(Exception(ValueError, NoFrameMessage))
    case CallerFrame(g) =>
      match CallerInProject(g, prefix)
      case Err(e) => Err(e)
      case Ok(inProject) =>
        if !inProject then OriginalGetItem(env, key)
        else match OriginalGetItem(env, key)
          case Ok(v) => Ok(v)
          case Err(_) => Ok(decode(mockedValue))
  }

  /** On an unset variable, project code gets the placeholder while code
      outside the project still gets the `KeyError`; a set variable reads the
      same for both. */
  lemma MockedOnlyForProjectCode(prefix: string, mockedValue: Bytes, decode: Bytes -> string,
                                 env: map<string, string>, key: string, inside: Globals, outside: Globals)
    requires inside.file.Str? && StartsWith(inside.file.text, prefix)
    requires outside.file.Str? && !StartsWith(outside.file.text, prefix)
    ensures key !in env ==>
              MockGetItem(prefix, mockedValue, decode, CallerFrame(inside), env, key) == Ok(decode(mockedValue))
              && MockGetItem(prefix, mockedValue, decode, CallerFrame(outside), env, key) == Err(Exception(KeyError, key))
    ensures key in env ==>
              MockGetItem(prefix, mockedValue, decode, CallerFrame(inside), env, key)
              == MockGetItem(prefix, mockedValue, decode, CallerFrame(outside), env, key)
              == Ok(env[key])
  {
  }
}

/** The older override: project code is recognised by the caller's
    `__package__` starting with the project's root module name, and the
    fallback is always the bytes `b"__mocked__"`. */
module MockEnvironLegacy {
  import opened Py
  import opened PyStr
  import MockEnviron

  /** b"__mocked__" */
  const MockedBytes: Bytes := [0x5f, 0x5f, 0x6d, 0x6f, 0x63, 0x6b, 0x65, 0x64, 0x5f, 0x5f]

  /** `f_globals["__package__"].startswith(project_root_module)`. */
  function CallerInProject(callerGlobals: Globals, rootModule: string): Result<bool> {
    match callerGlobals.package
    case Missing => Err(Exception(KeyError, "__package__"))
    case NonStr => Err(Exception(AttributeError, "'NoneType' object has no attribute 'startswith'"))
    case Str(p) => Ok(StartsWith(p, rootModule))
  }

  /** `mock_getitem(self, key)`. */
  function MockGetItem(rootModule: string, decode: Bytes -> string,
                       frames: MockEnviron.Frames, env: map<string, string>, key: string): (r: Result<string>)
    ensures !frames.CallerFrame? ==> r.Err? && r.error.kind == ValueError
    ensures frames.CallerFrame? && frames.callerGlobals.package.Str?
            && !StartsWith(frames.callerGlobals.package.text, rootModule)
            ==> r == MockEnviron.OriginalGetItem(env, key)
    ensures frames.CallerFrame? && frames.callerGlobals.package.Str?
            && StartsWith(frames.callerGlobals.package.text, rootModule)
            ==> r == Ok(if key in env then env[key] else decode(MockedBytes))
    ensures frames.CallerFrame? && frames.callerGlobals.package.Missing? ==> r == Err(Exception(KeyError, "__package__"))
    ensures frames.CallerFrame? && frames.callerGlobals.package.NonStr? ==> r.Err? && r.error.kind == AttributeError
    ensures r.Ok? ==> r.value == (if key in env then env[key] else decode(MockedBytes))
  {
    match frames
    case NoFrame => Err(Exception(ValueError, MockEnviron.NoFrameMessage))
    case NoCallerFrame => Err(Exception(ValueError, MockEnviron.NoFrameMessage))
    case CallerFrame(g) =>
      match CallerInProject(g, rootModule)
      case Err(e) => Err(e)
      case Ok(inProject) =>
        if !inProject then MockEnviron.OriginalGetItem(env, key)
        else match MockEnviron.OriginalGetItem(env, key)
          case Ok(v) => Ok(v)
          case Err(_) => Ok(decode(MockedBytes))
  }

  /** The older override is the current one keyed on `__package__` instead of
      `__file__`, with the fixed fallback bytes. */
  lemma SameRuleAsCurrent(rootModule: string, decode: Bytes -> string,
                          g: Globals, env: map<string, string>, key: string)
    requires g.package.Str?
    ensures MockGetItem(rootModule, decode, MockEnviron.CallerFrame(g), env, key)
            == MockEnviron.MockGetItem(rootModule, MockedBytes, decode,
                                       MockEnviron.CallerFrame(Globals(g.package, g.package)), env, key)
  {
  }
}
