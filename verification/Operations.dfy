/**
  `Operation`: the handle of one asynchronous execution. Its fields are
  updated by `BindProcess` (from the worker), by `FeedLog` and `FireDone`
  (from callbacks drained on the main thread) and by `Kill` (from the caller).

  The `onLog` / `onExit` events are each modelled by one handler that either
  is absent or throws on a chosen set of calls; every call made to a handler
  is recorded in `observed`, and every OS-level kill of the bound process in
  `killSignals`. Each method returns whether an observer's exception escaped.
 */
module Operations {
  import opened Wrappers
  import opened Capture

  /** One call of an observer: `onLog(kind, text)` or `onExit(code)`. */
  datatype Event = LogEvent(kind: LogType, text: string) | ExitEvent(code: int)

  /** An event's subscribers: none (a null delegate), or ones that throw on the calls in `throwsOn`. */
  datatype Handler = NoHandler | Handler(throwsOn: set<Event>)

  /** Whether a call of `h` with `e` throws. */
  predicate Throws(h: Handler, e: Event)
  {
    h.Handler? && e in h.throwsOn
  }

  /** The observable state of an `Operation`. */
  datatype OpState = OpState(
    killRequested: bool,
    process: Option<nat>,
    hasError: bool,
    isDone: bool,
    exitCode: int,
    onLog: Handler,
    onExit: Handler,
    observed: seq<Event>,
    killSignals: seq<nat>)

  /** A just-created `Operation`. */
  function Initial(): OpState
  {
    OpState(false, None, false, false, 0, NoHandler, NoHandler, [], [])
  }

  /** Calls `h` with `e`, if it is there: the new trace, and whether it threw. */
  function Notify(s: OpState, h: Handler, e: Event): (r: (seq<Event>, bool))
    ensures r.0 == if h.Handler? then s.observed + [e] else s.observed
    ensures r.1 == Throws(h, e)
  {
    if h.Handler? then (s.observed + [e], e in h.throwsOn) else (s.observed, false)
  }

  /**
    `FeedLog`: the log observer is called first; only if it returns does an
    `Error` line set `hasError`. Nothing else changes.
   */
  function FeedLogStep(s: OpState, kind: LogType, text: string): (r: (OpState, bool))
    ensures r.1 == Throws(s.onLog, LogEvent(kind, text))
    ensures r.0.hasError == (s.hasError || (kind == Error && !r.1))
    ensures r.0.observed == if s.onLog.Handler? then s.observed + [LogEvent(kind, text)] else s.observed
    ensures r.0 == s.(hasError := r.0.hasError, observed := r.0.observed)
  {
    var (observed, threw) := Notify(s, s.onLog, LogEvent(kind, text));
    var s' := s.(observed := observed);
    if threw then (s', true)
    else if kind == Error then (s'.(hasError := true), false)
    else (s', false)
  }

  /**
    `FireDone`: records the exit code and marks the operation done before
    calling the exit observer. There is no guard against a second call.
   */
  function FireDoneStep(s: OpState, code: int): (r: (OpState, bool))
    ensures r.0.isDone && r.0.exitCode == code
    ensures r.1 == Throws(s.onExit, ExitEvent(code))
    ensures r.0.observed == if s.onExit.Handler? then s.observed + [ExitEvent(code)] else s.observed
    ensures r.0 == s.(isDone := true, exitCode := code, observed := r.0.observed)
  {
    var (observed, threw) := Notify(s, s.onExit, ExitEvent(code));
    (s.(exitCode := code, isDone := true, observed := observed), threw)
  }

  /** The exit code reported when `Kill` finds no process to terminate. */
  const KilledExitCode: int := 137

  /**
    `Kill`: does nothing once a kill was requested. Otherwise it sets the
    flag and either terminates and forgets the bound process, or, with no
    process, completes at once with code 137.
   */
  function KillStep(s: OpState): (r: (OpState, bool))
    ensures s.killRequested ==> r == (s, false)
    ensures !s.killRequested ==> r.0.killRequested
    ensures !s.killRequested && s.process.Some? ==>
      r == (s.(killRequested := true, process := None, killSignals := s.killSignals + [s.process.value]), false)
    ensures !s.killRequested && s.process.None? ==>
      r == FireDoneStep(s.(killRequested := true), KilledExitCode)
  {
    if s.killRequested then (s, false)
    else
      var s' := s.(killRequested := true);
      match s.process
      case Some(pid) => (s'.(process := None, killSignals := s.killSignals + [pid]), false)
      case None => FireDoneStep(s', KilledExitCode)
  }

  /** A second `Kill` is a no-op, whatever the first one did. */
  lemma KillTwice(s: OpState)
    ensures KillStep(KillStep(s).0) == (KillStep(s).0, false)
    ensures KillStep(s).0.killRequested
  {
  }

  /**
    Killing an operation whose process is bound terminates that process once
    and does not complete the operation; completion is left to the runner.
   */
  lemma KillBoundProcess(s: OpState, pid: nat)
    requires !s.killRequested && s.process == Some(pid)
    ensures var t := KillStep(s).0;
      t.killSignals == s.killSignals + [pid] && t.process.None?
      && t.isDone == s.isDone && t.exitCode == s.exitCode && t.observed == s.observed
  {
  }

  /**
    Killing an operation with no process completes it with 137, calling the
    exit observer once, and sends no signal.
   */
  lemma KillUnbound(s: OpState)
    requires !s.killRequested && s.process.None?
    ensures var t := KillStep(s).0;
      t.isDone && t.exitCode == KilledExitCode && t.killSignals == s.killSignals
      && t.observed == s.observed + (if s.onExit.Handler? then [ExitEvent(KilledExitCode)] else [])
  {
  }

  /** The mutable handle. */
  class Operation {
    var killRequested: bool
    var process: Option<nat>
    var hasError: bool
    var isDone: bool
    var exitCode: int
    var onLog: Handler
    var onExit: Handler
    var observed: seq<Event>
    var killSignals: seq<nat>

    /** The fields as one value. */
    function State(): OpState
      reads this
    {
      OpState(killRequested, process, hasError, isDone, exitCode, onLog, onExit, observed, killSignals)
    }

    /** `new Operation()`: nothing requested, nothing bound, not done, no observers. */
    constructor ()
      ensures State() == Initial()
    {
      killRequested := false;
      process := None;
      hasError := false;
      isDone := false;
      exitCode := 0;
      onLog := NoHandler;
      onExit := NoHandler;
      observed := [];
      killSignals := [];
    }

    /** `onLog += ...` / `onLog -= ...`: the log handler becomes `h`. */
    method SetLogHandler(h: Handler)
      modifies this`onLog
      ensures State() == old(State()).(onLog := h)
    {
      onLog := h;
    }

    /** `onExit += ...` / `onExit -= ...`: the exit handler becomes `h`. */
    method SetExitHandler(h: Handler)
      modifies this`onExit
      ensures State() == old(State()).(onExit := h)
    {
      onExit := h;
    }

    /** `BindProcess`: remembers the started process; nothing ever clears it but `Kill`. */
    method BindProcess(pid: nat)
      modifies this`process
      ensures State() == old(State()).(process := Some(pid))
    {
      process := Some(pid);
    }

    /** `FeedLog`. */
    method FeedLog(kind: LogType, text: string) returns (threw: bool)
      modifies this`hasError, this`observed
      ensures (State(), threw) == FeedLogStep(old(State()), kind, text)
      ensures old(hasError) ==> hasError
    {
      threw := false;
      if onLog.Handler? {
        observed := observed + [LogEvent(kind, text)];
        if LogEvent(kind, text) in onLog.throwsOn {
          return true;
        }
      }
      if kind == Error {
        hasError := true;
      }
    }

    /** `FireDone`. */
    method FireDone(code: int) returns (threw: bool)
      modifies this`exitCode, this`isDone, this`observed
      ensures (State(), threw) == FireDoneStep(old(State()), code)
      ensures isDone && exitCode == code
    {
      exitCode := code;
      isDone := true;
      threw := false;
      if onExit.Handler? {
        observed := observed + [ExitEvent(code)];
        threw := ExitEvent(code) in onExit.throwsOn;
      }
    }

    /** `Kill`. */
    method Kill() returns (threw: bool)
      modifies this
      ensures (State(), threw) == KillStep(old(State()))
      ensures killRequested
    {
      if killRequested {
        return false;
      }
      killRequested := true;
      if process.Some? {
        killSignals := killSignals + [process.value];
        process := None;
        threw := false;
      } else {
        threw := FireDone(KilledExitCode);
      }
    }
  }
}
