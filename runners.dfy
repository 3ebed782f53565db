/** The runners of the current analyser: `ProcessRunner` runs the target in a
    worker process and polls a queue for the one message the worker posts;
    `PlainRunner` calls the target directly. A worker error travels as a
    `RemoteException` carrying the formatted traceback and the original
    exception, which must survive pickling. */
module Runners {
  import opened Py
  import opened Polling

  /** `RemoteException(repr, exception)`. */
  datatype RemoteException = RemoteException(repr: string, exception: Exception)

  /** One argument of the constructor call pickle records. */
  datatype PickleArg = TextArg(text: string) | ExceptionArg(exception: Exception)

  /** What `__reduce__` hands to pickle: the class to call, with these arguments. */
  datatype Reduced = Reduced(className: string, args: seq<PickleArg>)

  const MissingArgument: string :=
    "RemoteException.__init__() missing 1 required positional argument: 'exception'"

  /** Unpickling calls `RemoteException(*args)`; `__init__` takes exactly the
      text and the exception. */
  function Rebuild(s: Reduced): (r: Result<RemoteException>)
    ensures r.Ok? <==> |s.args| == 2 && s.args[0].TextArg? && s.args[1].ExceptionArg?
    ensures r.Ok? ==> r.value.repr == s.args[0].text && r.value.exception == s.args[1].exception
    ensures r.Err? ==> r.error == Exception(TypeError, MissingArgument)
  {
    if |s.args| == 2 && s.args[0].TextArg? && s.args[1].ExceptionArg? then
      Ok(RemoteException(s.args[0].text, s.args[1].exception))
    else
      Err(Exception(TypeError, MissingArgument))
  }

  /** `BaseException.__reduce__`: the class and `self.args`, which the
      constructor set to `(repr,)` only. Unpickling it fails, which is why
      the class overrides it. */
  function InheritedReduce(e: RemoteException): (s: Reduced)
    ensures Rebuild(s) == Err(Exception(TypeError, MissingArgument))
  {
    Reduced("RemoteException", [TextArg(e.repr)])
  }

  /** `RemoteException.__reduce__`: unpickling rebuilds the same text and the
      same inner exception. */
  function Reduce(e: RemoteException): (s: Reduced)
    ensures Rebuild(s) == Ok(e)
    ensures s.className == "RemoteException"
  {
    Reduced("RemoteException", [TextArg(e.repr), ExceptionArg(e.exception)])
  }

  /** The worker's `wrapper`: runs the target and posts one pair. `render` is
      `format_exception`. An exception that `except Exception` does not catch
      escapes the worker, and nothing is posted. */
  function Wrap<T>(target: Result<T>, render: Exception -> string): (m: Option<Message<T, RemoteException>>)
    ensures m.Some? <==> target.Ok? || target.error.IsException()
    ensures target.Ok? ==> m == Some(ValueMsg(target.value))
    ensures m.Some? && m.value.ErrorMsg? ==>
              target.Err? && m.value.err.exception == target.error
              && Rebuild(Reduce(m.value.err)) == Ok(m.value.err)
  {
    match target
    case Ok(v) => Some(ValueMsg(v))
    case Err(e) =>
      if e.IsException() then Some(ErrorMsg(RemoteException(render(e), e))) else None
  }

  /** An exception as the caller of `run` sees it: the exception, its
      explicit `__cause__`, and whether the `queue.Empty` being handled shows
      as its context. */
  datatype Raised = Raised(exception: Exception, cause: Option<RemoteException>, showsQueueEmpty: bool)

  /** What `run` returns or raises. */
  datatype RunResult<T> = Value(value: T) | Raise(raised: Raised)

  /** `int(timeout / 0.2)` and `str(timeout)`; the float itself is not modelled. */
  datatype Timeout = Timeout(polls: int, text: string)

  /** A runner instance: `ProcessRunner(timeout)` or `PlainRunner()`. */
  datatype Runner = ProcessRunner(timeout: Option<Timeout>) | PlainRunner

  const CrashMessage: string :=
    "The subprocess loading your code crashed, likely due to an OOM. "
    + "Hint: if you have heavy objects in global scope of your (sub)modules, "
    + "dont whitelist them for full import and let them lazyload"

  function TimeoutMessage(targetName: string, timeoutText: string): string {
    targetName + " Timed out after " + timeoutText + " seconds"
  }

  /** The raise or return that ends `ProcessRunner.run`: a worker error is
      re-raised with the remote traceback as its cause, and the crash is
      raised `from None`. */
  function Surface<T>(o: Outcome<T, RemoteException>, targetName: string, timeout: Option<Timeout>): (r: RunResult<T>)
    ensures r.Value? <==> o.Returned?
    ensures o.Returned? ==> r.value == o.value
    ensures r.Raise? ==> !r.raised.showsQueueEmpty
    ensures o.WorkerRaised? ==> r.raised.exception == o.error.exception && r.raised.cause == Some(o.error)
    ensures o.Crashed? ==> r.raised == Raised(Exception(ChildProcessError, CrashMessage), None, false)
    ensures o.TimedOut? ==>
              r.raised.cause.None? && r.raised.exception.kind == TimeoutError
              && (timeout.Some? ==> r.raised.exception.message == TimeoutMessage(targetName, timeout.value.text))
  {
    match o
    case Returned(v) => Value(v)
    case WorkerRaised(err) => Raise(Raised(err.exception, Some(err), false))
    case Crashed => Raise(Raised(Exception(ChildProcessError, CrashMessage), None, false))
    case TimedOut =>
      Raise(Raised(Exception(TimeoutError, TimeoutMessage(targetName, if timeout.Some? then timeout.value.text else "None")), None, false))
  }

  /** `ProcessRunner(timeout).run(target)`, with `observe(i)` what the
      `i`-th `q.get` sees. Without a timeout some poll must end the loop. */
  method ProcessRun<T>(targetName: string, timeout: Option<Timeout>, observe: nat -> Poll<T, RemoteException>)
    returns (r: RunResult<T>, polls: nat)
    requires timeout.Some? || WorkerAnswers(observe)
    ensures 1 <= polls && (timeout.Some? ==> polls <= PollBound(timeout.value.polls))
    ensures forall j :: 0 <= j < polls - 1 ==> observe(j).EmptyAlive?
    ensures observe(polls - 1).Received? && observe(polls - 1).msg.ValueMsg? ==>
              r == Value(observe(polls - 1).msg.ok)
    ensures observe(polls - 1).Received? && observe(polls - 1).msg.ErrorMsg? ==>
              r == Raise(Raised(observe(polls - 1).msg.err.exception, Some(observe(polls - 1).msg.err), false))
    ensures observe(polls - 1).EmptyDead? ==>
              r == Raise(Raised(Exception(ChildProcessError, CrashMessage), None, false))
    ensures observe(polls - 1).EmptyAlive? ==>
              timeout.Some? && polls == PollBound(timeout.value.polls)
              && r == Raise(Raised(Exception(TimeoutError, TimeoutMessage(targetName, timeout.value.text)), None, false))
    ensures timeout.Some? ==> r == Surface(OutcomeFrom(observe, 0, PollBound(timeout.value.polls)), targetName, timeout)
    ensures Terminal(observe(polls - 1)) ==> r == Surface(Settle(observe(polls - 1)), targetName, timeout)
  {
    var bound := if timeout.Some? then Some(timeout.value.polls) else None;
    var o;
    o, polls := PollLoop(bound, observe);
    r := Surface(o, targetName, timeout);
  }

  /** `PlainRunner().run(target)`: the target's own result or exception. */
  function PlainRun<T>(target: Result<T>): (r: RunResult<T>)
    ensures r.Value? <==> target.Ok?
    ensures r.Value? ==> r.value == target.value
    ensures r.Raise? ==> r.raised == Raised(target.error, None, false)
  {
    match target
    case Ok(v) => Value(v)
    case Err(e) => Raise(Raised(e, None, false))
  }

  /** `r` is what the plain runner gives for `target`, except that an
      exception carries the remote traceback as its cause. */
  ghost predicate AgreesWithInline<T>(r: RunResult<T>, target: Result<T>, render: Exception -> string) {
    (target.Ok? ==> r == PlainRun(target))
    && (target.Err? ==> r.Raise? && r.raised.exception == PlainRun(target).raised.exception
                        && r.raised.cause == Some(RemoteException(render(target.error), target.error)))
  }

  /** When the worker's message arrives within the bound, the process runner
      returns what the plain runner returns, and raises the same exception,
      with the remote traceback attached as its cause. */
  lemma IsolatedAgreesWithInline<T>(target: Result<T>, render: Exception -> string,
                                    observe: nat -> Poll<T, RemoteException>, k: nat, limit: nat,
                                    targetName: string, timeout: Option<Timeout>)
    requires Wrap(target, render).Some?
    requires k < limit && observe(k) == Received(Wrap(target, render).value)
    requires forall j :: 0 <= j < k ==> observe(j).EmptyAlive?
    ensures AgreesWithInline(Surface(OutcomeFrom(observe, 0, limit), targetName, timeout), target, render)
  {
    FirstTerminalDecides(observe, 0, k, limit);
  }

  /** The same over a whole run: when every message the worker posts is the
      target's result, wrapped, the first one to arrive within the bound
      makes the run agree with the plain runner. */
  lemma RunAgreesWithInline<T>(target: Result<T>, render: Exception -> string,
                               observe: nat -> Poll<T, RemoteException>, targetName: string,
                               timeout: Option<Timeout>, r: RunResult<T>)
    requires forall k: nat :: observe(k).Received? ==> Wrap(target, render) == Some(observe(k).msg)
    requires timeout.Some? ==> r == Surface(OutcomeFrom(observe, 0, PollBound(timeout.value.polls)), targetName, timeout)
    requires timeout.None? ==>
               forall k: nat :: Terminal(observe(k)) ==> r == Surface(OutcomeFrom(observe, 0, k + 1), targetName, None)
    ensures forall k: nat :: FirstAnswer(observe, k) && (timeout.Some? ==> k < PollBound(timeout.value.polls))
              ==> AgreesWithInline(r, target, render)
  {
    forall k: nat | FirstAnswer(observe, k) && (timeout.Some? ==> k < PollBound(timeout.value.polls))
      ensures AgreesWithInline(r, target, render)
    {
      var limit := if timeout.Some? then PollBound(timeout.value.polls) else k + 1;
      assert Terminal(observe(k));
      IsolatedAgreesWithInline(target, render, observe, k, limit, targetName, timeout);
    }
  }
}

/** The runners of the two older trees: the worker posts the raw exception and
    the parent raises it as is; the crash is raised inside the `queue.Empty`
    handler without suppressing that context. */
module RunnersLegacy {
  import opened Py
  import opened Polling
  import opened Runners

  /** The worker's `wrapper`: `(result, None)` or `(None, e)`. */
  function Wrap<T>(target: Result<T>): (m: Option<Message<T, Exception>>)
    ensures m.Some? <==> target.Ok? || target.error.IsException()
    ensures target.Ok? ==> m == Some(ValueMsg(target.value))
    ensures m.Some? && m.value.ErrorMsg? ==> target.Err? && m.value.err == target.error
  {
    match target
    case Ok(v) => Some(ValueMsg(v))
    case Err(e) => if e.IsException() then Some(ErrorMsg(e)) else None
  }

  /** The raise or return that ends `ProcessRunner.run`: a worker error is
      raised as it is, and the crash keeps the `queue.Empty` context. */
  function Surface<T>(o: Outcome<T, Exception>, targetName: string, timeout: Option<Timeout>): (r: RunResult<T>)
    ensures r.Value? <==> o.Returned?
    ensures o.Returned? ==> r.value == o.value
    ensures r.Raise? ==> r.raised.cause.None? && (r.raised.showsQueueEmpty <==> o.Crashed?)
    ensures o.WorkerRaised? ==> r.raised.exception == o.error
    ensures o.Crashed? ==> r.raised.exception == Exception(ChildProcessError, CrashMessage)
    ensures o.TimedOut? ==>
              r.raised.exception.kind == TimeoutError
              && (timeout.Some? ==> r.raised.exception.message == TimeoutMessage(targetName, timeout.value.text))
  {
    match o
    case Returned(v) => Value(v)
    case WorkerRaised(e) => Raise(Raised(e, None, false))
    case Crashed => Raise(Raised(Exception(ChildProcessError, CrashMessage), None, true))
    case TimedOut =>
      Raise(Raised(Exception(TimeoutError, TimeoutMessage(targetName, if timeout.Some? then timeout.value.text else "None")), None, false))
  }

  /** `ProcessRunner(timeout).run(target)`. */
  method ProcessRun<T>(targetName: string, timeout: Option<Timeout>, observe: nat -> Poll<T, Exception>)
    returns (r: RunResult<T>, polls: nat)
    requires timeout.Some? || WorkerAnswers(observe)
    ensures 1 <= polls && (timeout.Some? ==> polls <= PollBound(timeout.value.polls))
    ensures forall j :: 0 <= j < polls - 1 ==> observe(j).EmptyAlive?
    ensures observe(polls - 1).Received? && observe(polls - 1).msg.ValueMsg? ==>
              r == Value(observe(polls - 1).msg.ok)
    ensures observe(polls - 1).Received? && observe(polls - 1).msg.ErrorMsg? ==>
              r == Raise(Raised(observe(polls - 1).msg.err, None, false))
    ensures observe(polls - 1).EmptyDead? ==>
              r == Raise(Raised(Exception(ChildProcessError, CrashMessage), None, true))
    ensures observe(polls - 1).EmptyAlive? ==>
              timeout.Some? && polls == PollBound(timeout.value.polls)
              && r == Raise(Raised(Exception(TimeoutError, TimeoutMessage(targetName, timeout.value.text)), None, false))
    ensures timeout.Some? ==> r == Surface(OutcomeFrom(observe, 0, PollBound(timeout.value.polls)), targetName, timeout)
    ensures Terminal(observe(polls - 1)) ==> r == Surface(Settle(observe(polls - 1)), targetName, timeout)
  {
    var bound := if timeout.Some? then Some(timeout.value.polls) else None;
    var o;
    o, polls := PollLoop(bound, observe);
    r := Surface(o, targetName, timeout);
  }

  /** When the worker's message arrives within the bound, the process runner
      gives exactly what the plain runner gives. */
  lemma IsolatedAgreesWithInline<T>(target: Result<T>, observe: nat -> Poll<T, Exception>, k: nat, limit: nat,
                                    targetName: string, timeout: Option<Timeout>)
    requires Wrap(target).Some?
    requires k < limit && observe(k) == Received(Wrap(target).value)
    requires forall j :: 0 <= j < k ==> observe(j).EmptyAlive?
    ensures Surface(OutcomeFrom(observe, 0, limit), targetName, timeout) == PlainRun(target)
  {
    FirstTerminalDecides(observe, 0, k, limit);
  }

  /** The same over a whole run: when every message the worker posts is the
      target's result, wrapped, the first one to arrive within the bound
      makes the run give exactly the plain runner's result. */
  lemma RunAgreesWithInline<T>(target: Result<T>, observe: nat -> Poll<T, Exception>, targetName: string,
                               timeout: Option<Timeout>, r: RunResult<T>)
    requires forall k: nat :: observe(k).Received? ==> Wrap(target) == Some(observe(k).msg)
    requires timeout.Some? ==> r == Surface(OutcomeFrom(observe, 0, PollBound(timeout.value.polls)), targetName, timeout)
    requires timeout.None? ==>
               forall k: nat :: Terminal(observe(k)) ==> r == Surface(OutcomeFrom(observe, 0, k + 1), targetName, None)
    ensures forall k: nat :: FirstAnswer(observe, k) && (timeout.Some? ==> k < PollBound(timeout.value.polls))
              ==> r == PlainRun(target)
  {
    forall k: nat | FirstAnswer(observe, k) && (timeout.Some? ==> k < PollBound(timeout.value.polls))
      ensures r == PlainRun(target)
    {
      var limit := if timeout.Some? then PollBound(timeout.value.polls) else k + 1;
      assert Terminal(observe(k));
      IsolatedAgreesWithInline(target, observe, k, limit, targetName, timeout);
    }
  }

  /** The current runner differs from the older one only in the cause it
      attaches to a worker error and in suppressing the crash's context. */
  lemma CurrentAddsCause<T>(o: Outcome<T, RemoteException>, targetName: string, timeout: Option<Timeout>)
    ensures var legacy := Surface(Lift(o), targetName, timeout);
            var current := Runners.Surface(o, targetName, timeout);
            (current.Value? <==> legacy.Value?)
            && (current.Value? ==> current == legacy)
            && (current.Raise? ==> current.raised.exception == legacy.raised.exception)
            && (o.WorkerRaised? ==> current.raised.cause == Some(o.error) && legacy.raised.cause.None?)
            && (o.Crashed? ==> !current.raised.showsQueueEmpty && legacy.raised.showsQueueEmpty)
  {
  }

  /** The older worker's outcome for the same run: the raw inner exception. */
  function Lift<T>(o: Outcome<T, RemoteException>): Outcome<T, Exception> {
    match o
    case Returned(v) => Returned(v)
    case WorkerRaised(err) => WorkerRaised(err.exception)
    case Crashed => Crashed
    case TimedOut => TimedOut
  }
}

/** The registry of the oldest tree: defining a `Runner` subclass with a key
    checks the key against the class name and stores the class under it. */
module RunnerRegistry {
  import opened Py
  import opened PyStr
  import opened Runners

  /** The two runner classes the module defines. */
  datatype RunnerClass = ProcessRunnerClass | PlainRunnerClass

  function ClassName(c: RunnerClass): string {
    match c
    case ProcessRunnerClass => "ProcessRunner"
    case PlainRunnerClass => "PlainRunner"
  }

  /** The check `__init_subclass__` asserts. */
  predicate KeyMatches(c: RunnerClass, key: string) {
    StartsWith(Lower(ClassName(c)), key)
  }

  /** `registry[key](*args)`: `ProcessRunner` takes exactly the timeout,
      `PlainRunner` no argument. */
  function Instantiate(c: RunnerClass, args: seq<Option<Timeout>>): (r: Result<Runner>)
    ensures r.Ok? <==> (c.ProcessRunnerClass? && |args| == 1) || (c.PlainRunnerClass? && |args| == 0)
    ensures r.Ok? && c.ProcessRunnerClass? ==> r.value == ProcessRunner(args[0])
    ensures r.Ok? && c.PlainRunnerClass? ==> r.value == PlainRunner
    ensures r.Err? ==> r.error.kind == TypeError
  {
    match c
    case ProcessRunnerClass =>
      if |args| == 1 then Ok(ProcessRunner(args[0]))
      else Err(Exception(TypeError, "ProcessRunner.__init__() takes 2 positional arguments"))
    case PlainRunnerClass =>
      if |args| == 0 then Ok(PlainRunner)
      else Err(Exception(TypeError, "PlainRunner() takes no arguments"))
  }

  /** The module-level `registry` dict. */
  class Registry {
    var entries: map<string, RunnerClass>

    /** Importing the module: the dict starts empty, then the two subclass
        definitions register themselves. */
    constructor ()
      ensures entries == map["process" := ProcessRunnerClass, "plain" := PlainRunnerClass]
      ensures Consistent(entries)
    {
      entries := map[];
      new;
      assert Lower("ProcessRunner")[..7] == "process";
      var r1 := InitSubclass(ProcessRunnerClass, "process");
      assert Lower("PlainRunner")[..5] == "plain";
      var r2 := InitSubclass(PlainRunnerClass, "plain");
    }

    /** `Runner.__init_subclass__(cls, key)`. */
    method InitSubclass(c: RunnerClass, key: string) returns (r: Result<()>)
      modifies this
      ensures KeyMatches(c, key) ==> r == Ok(()) && entries == old(entries)[key := c]
      ensures !KeyMatches(c, key) ==> r == Err(Exception(AssertionError, "")) && entries == old(entries)
      ensures Consistent(old(entries)) ==> Consistent(entries)
    {
      if !KeyMatches(c, key) {
        return Err(Exception(AssertionError, ""));
      }
      entries := entries[key := c];
      r := Ok(());
    }

    /** `registry[key]`. */
    function Lookup(key: string): (r: Result<RunnerClass>)
      reads this
      ensures key in entries ==> r == Ok(entries[key])
      ensures key !in entries ==> r == Err(Exception(KeyError, key))
    {
      if key in entries then Ok(entries[key]) else Err(Exception(KeyError, key))
    }
  }

  /** Every class the registry holds was stored under a key its lower-cased
      name starts with. */
  predicate Consistent(entries: map<string, RunnerClass>) {
    forall key :: key in entries ==> KeyMatches(entries[key], key)
  }
}
