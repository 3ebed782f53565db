/** The polling loop of `ProcessRunner.run`, common to the three runner
    files: the parent polls the worker's queue a bounded (or, with no timeout,
    unbounded) number of times; each poll finds the queue empty with the
    worker alive or dead, or receives the worker's one message. The queue and
    the process are replaced by `observe(i)`, the observation of poll `i`. */
module Polling {
  import opened Py

  /** The pair the worker posts: `(ok, None)` or `(None, err)`. */
  datatype Message<T, E> = ValueMsg(ok: T) | ErrorMsg(err: E)

  /** One `q.get(timeout=0.2)`: empty with the worker alive, empty with the
      worker dead, or a received message. */
  datatype Poll<T, E> = EmptyAlive | EmptyDead | Received(msg: Message<T, E>)

  /** How the loop ends: value, worker error, crash, or timeout. */
  datatype Outcome<T, E> = Returned(value: T) | WorkerRaised(error: E) | Crashed | TimedOut

  /** A poll after which the loop does not poll again. */
  predicate Terminal<T, E>(p: Poll<T, E>) {
    !p.EmptyAlive?
  }

  /** Some poll ends the loop: what an unbounded loop needs to stop. */
  ghost predicate WorkerAnswers<T, E>(observe: nat -> Poll<T, E>) {
    exists k: nat :: Terminal(observe(k))
  }

  /** Poll `k` receives the worker's message, and every earlier poll found
      the queue empty with the worker alive. */
  predicate FirstAnswer<T, E>(observe: nat -> Poll<T, E>, k: nat) {
    observe(k).Received? && forall j :: 0 <= j < k ==> observe(j).EmptyAlive?
  }

  /** How a terminal poll ends the loop. */
  function Settle<T, E>(p: Poll<T, E>): Outcome<T, E>
    requires Terminal(p)
  {
    match p
    case EmptyDead => Crashed
    case Received(ValueMsg(v)) => Returned(v)
    case Received(ErrorMsg(e)) => WorkerRaised(e)
  }

  /** `max(1, int(timeout / frequency))`, given the integer part. */
  function PollBound(n: int): (b: nat)
    ensures 1 <= b && n <= b
    ensures b == 1 || b == n
  {
    if n < 1 then 1 else n
  }

  /** The outcome of the polls numbered `i` up to `limit - 1`. */
  function OutcomeFrom<T, E>(observe: nat -> Poll<T, E>, i: nat, limit: nat): Outcome<T, E>
    decreases limit - i
  {
    if i >= limit then TimedOut
    else if Terminal(observe(i)) then Settle(observe(i))
    else OutcomeFrom(observe, i + 1, limit)
  }

  /** The loop times out exactly when every poll it makes finds the queue
      empty and the worker alive. */
  lemma {:induction false} TimesOutIffAllEmptyAlive<T, E>(observe: nat -> Poll<T, E>, i: nat, limit: nat)
    ensures OutcomeFrom(observe, i, limit) == TimedOut <==> forall j :: i <= j < limit ==> observe(j).EmptyAlive?
    decreases limit - i
  {
    if i < limit {
      TimesOutIffAllEmptyAlive(observe, i + 1, limit);
    }
  }

  /** The first terminal poll within the bound decides the outcome. */
  lemma {:induction false} FirstTerminalDecides<T, E>(observe: nat -> Poll<T, E>, i: nat, k: nat, limit: nat)
    requires i <= k < limit && Terminal(observe(k))
    requires forall j :: i <= j < k ==> observe(j).EmptyAlive?
    ensures OutcomeFrom(observe, i, limit) == Settle(observe(k))
    decreases k - i
  {
    if i < k {
      FirstTerminalDecides(observe, i + 1, k, limit);
    }
  }

  /** With no bound the loop runs until the first terminal poll: any bound
      past a terminal poll gives the same outcome, which is never a timeout. */
  lemma UnboundedNeverTimesOut<T, E>(observe: nat -> Poll<T, E>, k: nat, limit: nat)
    requires Terminal(observe(k)) && k < limit
    ensures OutcomeFrom(observe, 0, limit) != TimedOut
    ensures OutcomeFrom(observe, 0, limit) == OutcomeFrom(observe, 0, k + 1)
  {
    TimesOutIffAllEmptyAlive(observe, 0, limit);
    TimesOutIffAllEmptyAlive(observe, 0, k + 1);
    var f :| 0 <= f <= k && Terminal(observe(f)) && forall j :: 0 <= j < f ==> observe(j).EmptyAlive? by {
      FirstTerminalExists(observe, 0, k);
    }
    FirstTerminalDecides(observe, 0, f, limit);
    FirstTerminalDecides(observe, 0, f, k + 1);
  }

  lemma {:induction false} FirstTerminalExists<T, E>(observe: nat -> Poll<T, E>, i: nat, k: nat)
    requires i <= k && Terminal(observe(k))
    ensures exists f :: i <= f <= k && Terminal(observe(f)) && forall j :: i <= j < f ==> observe(j).EmptyAlive?
    decreases k - i
  {
    if !Terminal(observe(i)) {
      FirstTerminalExists(observe, i + 1, k);
      var f :| i + 1 <= f <= k && Terminal(observe(f)) && forall j :: i + 1 <= j < f ==> observe(j).EmptyAlive?;
      assert forall j :: i <= j < f ==> observe(j).EmptyAlive?;
    }
  }

  /** The `for _ in counter` loop of `ProcessRunner.run`. `bound` is
      `int(timeout / 0.2)`, or None for no timeout; `polls` counts the
      `q.get` calls made. */
  method PollLoop<T, E>(bound: Option<int>, observe: nat -> Poll<T, E>) returns (o: Outcome<T, E>, polls: nat)
    requires bound.Some? || WorkerAnswers(observe)
    ensures 1 <= polls
    ensures bound.Some? ==> polls <= PollBound(bound.value) && o == OutcomeFrom(observe, 0, PollBound(bound.value))
    ensures forall j :: 0 <= j < polls - 1 ==> observe(j).EmptyAlive?
    ensures o.TimedOut? ==> bound.Some? && polls == PollBound(bound.value) && observe(polls - 1).EmptyAlive?
    ensures !o.TimedOut? ==> Terminal(observe(polls - 1)) && o == Settle(observe(polls - 1))
  {
    var limit := if bound.Some? then PollBound(bound.value) else 0;
    ghost var w: nat :| bound.Some? || Terminal(observe(w));
    polls := 0;
    while bound.None? || polls < limit
      invariant bound.Some? ==> polls <= limit
      invariant bound.None? ==> polls <= w
      invariant forall j :: 0 <= j < polls ==> observe(j).EmptyAlive?
      invariant bound.Some? ==> OutcomeFrom(observe, polls, limit) == OutcomeFrom(observe, 0, limit)
      decreases if bound.Some? then limit - polls else w - polls
    {
      var p := observe(polls);
      polls := polls + 1;
      match p {
        case EmptyAlive =>
        case EmptyDead =>
          return Crashed, polls;
        case Received(ValueMsg(v)) =>
          return Returned(v), polls;
        case Received(ErrorMsg(e)) =>
          return WorkerRaised(e), polls;
      }
    }
    o := TimedOut;
  }
}
