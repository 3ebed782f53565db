/** Values of the Python runtime that the analyser's decision logic inspects:
    exceptions, results of calls that may raise, module globals, module objects
    and the interpreter's module search path. */
module Py {

  datatype Option<+T> = None | Some(value: T)

  /** The exception classes the analyser raises, catches or lets through. */
  datatype ExcKind =
    | ModuleNotFoundError
    | ValueError
    | KeyError
    | AttributeError
    | AssertionError
    | IndexError
    | TypeError
    | FileNotFoundError
    | ChildProcessError
    | TimeoutError
    | SystemExit
    | KeyboardInterrupt
    | OtherError(className: string)

  datatype Exception = Exception(kind: ExcKind, message: string)
  {
    /** `except Exception` catches everything except the BaseException-only classes. */
    predicate IsException() {
      !kind.SystemExit? && !kind.KeyboardInterrupt?
    }
  }

  /** The outcome of a Python call: a returned value or a raised exception. */
  datatype Result<+T> = Ok(value: T) | Err(error: Exception)

  /** What a lookup of one key in a module's globals dict finds. */
  datatype Attr = Missing | NonStr | Str(text: string)

  /** The two entries of a caller's globals that the interceptors consult. */
  datatype Globals = Globals(file: Attr, package: Attr)

  /** A loaded module; `withMocks` records that its class was reassigned to the
      "may contain placeholders" module class. */
  datatype Module = Module(name: string, withMocks: bool)

  type Bytes = seq<bv8>

  /** The part of the interpreter's process-wide state the loader changes. */
  class Interpreter {
    var sysPath: seq<string>

    constructor (path: seq<string>)
      ensures sysPath == path
    {
      sysPath := path;
    }
  }
}
