/**
  The asynchronous `Execute`: it returns a fresh `Operation` at once and
  hands a delegate to the thread pool. That delegate (`RunWorker`) builds
  the start info, gives up if a kill was already requested, starts the
  process, binds it to the operation, and enqueues one callback per stdout
  line, one per delivered stderr line and a final `FireDone`; any exception
  is caught and turned into one callback that feeds an `Error` line and
  fires `FireDone(-1)`.
 */
module Worker {
  import opened Wrappers
  import opened Capture
  import opened Operations
  import opened Dispatch

  /** Every line, normalised. */
  function NormalizeAll(lines: seq<string>): (r: seq<string>)
    ensures |r| == |lines|
    ensures forall i :: 0 <= i < |lines| ==> r[i] == Normalize(lines[i])
  {
    seq(|lines|, i requires 0 <= i < |lines| => Normalize(lines[i]))
  }

  /** One `FeedLog(kind, text)` callback per text, in order. */
  function Feeds(op: Operation, kind: LogType, texts: seq<string>): (r: seq<Action>)
    ensures |r| == |texts|
    ensures forall i :: 0 <= i < |texts| ==> r[i] == FeedAction(op, kind, texts[i])
  {
    seq(|texts|, i requires 0 <= i < |texts| => FeedAction(op, kind, texts[i]))
  }

  /** The callback enqueued once the process has been waited for and closed. */
  function Completion(op: Operation, exit: Exit): (a: Action)
    ensures Terminal(a) && a.op == op
    ensures a.DoneAction? <==> exit.Exited? && exit.closeFault.None?
    ensures a.DoneAction? ==> a.code == exit.code
    ensures a.FaultAction? ==> a.message == if exit.WaitFault? then exit.message else exit.closeFault.value
  {
    match exit
    case WaitFault(m) => FaultAction(op, m)
    case Exited(_, Some(m)) => FaultAction(op, m)
    case Exited(code, None) => DoneAction(op, code)
  }

  /** The run gets through every step without an exception. */
  predicate Succeeds(launch: Launch)
  {
    && launch.buildFault.None?
    && launch.spawn.Spawned?
    && ReadStdout(launch.spawn.run.stdout).fault.None?
    && ReadStderr(launch.spawn.run.stderr).fault.None?
    && launch.spawn.run.exit.Exited?
    && launch.spawn.run.exit.closeFault.None?
  }

  /** The callbacks enqueued after the process was started. */
  function RunActions(op: Operation, run: ProcessRun): seq<Action>
  {
    var out := ReadStdout(run.stdout);
    var outFeeds := Feeds(op, Log, NormalizeAll(out.lines));
    if out.fault.Some? then outFeeds + [FaultAction(op, out.fault.value)]
    else
      var err := ReadStderr(run.stderr);
      var feeds := outFeeds + Feeds(op, Error, err.lines);
      if err.fault.Some? then feeds + [FaultAction(op, err.fault.value)]
      else feeds + [Completion(op, run.exit)]
  }

  /**
    Everything the worker appends to the queue, given whether a kill was
    requested when it looked. A failing `BuildStartInfo` runs before that
    look, so its failure callback is enqueued even after a kill. Otherwise:
    nothing at all if the kill came first; else a run of `FeedLog` callbacks closed by exactly one completing
    callback: `FireDone(code)` on success, the failure callback otherwise.
   */
  function WorkerActions(op: Operation, killRequested: bool, launch: Launch): (r: seq<Action>)
    ensures launch.buildFault.None? && killRequested ==> r == []
    ensures !(launch.buildFault.None? && killRequested) ==>
      && |r| >= 1
      && Terminal(r[|r| - 1])
      && (r[|r| - 1].DoneAction? <==> Succeeds(launch))
      && (forall i :: 0 <= i < |r| - 1 ==> r[i].FeedAction?)
    ensures forall a :: a in r ==> !a.NullAction? && a.op == op
    ensures forall a :: a in r && a.FeedAction? && a.kind == Log ==> '\\' !in a.text
  {
    if launch.buildFault.Some? then [FaultAction(op, launch.buildFault.value)]
    else if killRequested then []
    else match launch.spawn
      case SpawnFault(m) => [FaultAction(op, m)]
      case Spawned(run) => RunActions(op, run)
  }

  /** Whether the worker gets as far as starting the process (and so binds it). */
  predicate Binds(killRequested: bool, launch: Launch)
  {
    launch.buildFault.None? && !killRequested && launch.spawn.Spawned?
  }

  /** Enqueueing one more feed after a prefix of feeds. */
  lemma FeedsSnoc(q: seq<Action>, op: Operation, kind: LogType, texts: seq<string>, t: string)
    ensures (q + Feeds(op, kind, texts)) + [FeedAction(op, kind, t)] == q + Feeds(op, kind, texts + [t])
  {
    assert Feeds(op, kind, texts + [t]) == Feeds(op, kind, texts) + [FeedAction(op, kind, t)];
  }

  lemma NormalizeAllSnoc(lines: seq<string>, line: string)
    ensures NormalizeAll(lines + [line]) == NormalizeAll(lines) + [Normalize(line)]
  {
  }

  /** The stdout loop of the worker: a `Log` callback per normalised line. */
  method EnqueueStdout(op: Operation, queue: Dispatcher, rs: seq<Read>) returns (fault: Option<string>)
    modifies queue`queue
    ensures fault == ReadStdout(rs).fault
    ensures queue.queue == old(queue.queue) + Feeds(op, Log, NormalizeAll(ReadStdout(rs).lines))
  {
    ghost var seen: seq<string> := [];
    var i := 0;
    while i < |rs|
      invariant i == |seen| && ReadSoFar(rs, seen)
      invariant queue.queue == old(queue.queue) + Feeds(op, Log, NormalizeAll(seen))
    {
      match rs[i]
      case ReadFault(m) =>
        StdoutStop(rs, seen);
        return Some(m);
      case Line(line) =>
        var normalized := Normalize(line);
        FeedsSnoc(old(queue.queue), op, Log, NormalizeAll(seen), normalized);
        NormalizeAllSnoc(seen, line);
        queue.Enqueue(FeedAction(op, Log, normalized));
        seen := seen + [line];
        i := i + 1;
    }
    StdoutStop(rs, seen);
    fault := None;
  }

  /** The stderr loop of the worker: an `Error` callback per line up to the first empty one. */
  method EnqueueStderr(op: Operation, queue: Dispatcher, rs: seq<Read>) returns (fault: Option<string>)
    modifies queue`queue
    ensures fault == ReadStderr(rs).fault
    ensures queue.queue == old(queue.queue) + Feeds(op, Error, ReadStderr(rs).lines)
  {
    ghost var seen: seq<string> := [];
    var j := 0;
    while j < |rs|
      invariant j == |seen| && ReadSoFar(rs, seen)
      invariant forall k :: 0 <= k < |seen| ==> seen[k] != ""
      invariant queue.queue == old(queue.queue) + Feeds(op, Error, seen)
    {
      match rs[j]
      case ReadFault(m) =>
        StderrStop(rs, seen);
        return Some(m);
      case Line(error) =>
        if error == "" {
          break;
        }
        FeedsSnoc(old(queue.queue), op, Error, seen, error);
        queue.Enqueue(FeedAction(op, Error, error));
        seen := seen + [error];
        j := j + 1;
    }
    StderrStop(rs, seen);
    fault := None;
  }

  /** Regrouping an append of three pieces. */
  lemma AppendAssoc(q: seq<Action>, a: seq<Action>, b: seq<Action>)
    ensures (q + a) + b == q + (a + b)
  {
  }

  /** The part of the delegate after the process was started: its two read loops and the completion. */
  method EnqueueRun(op: Operation, queue: Dispatcher, run: ProcessRun)
    modifies queue`queue
    ensures queue.queue == old(queue.queue) + RunActions(op, run)
  {
    ghost var q0 := queue.queue;
    ghost var outFeeds := Feeds(op, Log, NormalizeAll(ReadStdout(run.stdout).lines));
    var outFault := EnqueueStdout(op, queue, run.stdout);
    if outFault.Some? {
      queue.Enqueue(FaultAction(op, outFault.value));
      AppendAssoc(q0, outFeeds, [FaultAction(op, outFault.value)]);
      return;
    }
    ghost var errFeeds := Feeds(op, Error, ReadStderr(run.stderr).lines);
    var errFault := EnqueueStderr(op, queue, run.stderr);
    AppendAssoc(q0, outFeeds, errFeeds);
    if errFault.Some? {
      queue.Enqueue(FaultAction(op, errFault.value));
      AppendAssoc(q0, outFeeds + errFeeds, [FaultAction(op, errFault.value)]);
      return;
    }
    var last: Action;
    match run.exit {
      case WaitFault(m) =>
        last := FaultAction(op, m);
      case Exited(code, closeFault) =>
        if closeFault.Some? {
          last := FaultAction(op, closeFault.value);
        } else {
          last := DoneAction(op, code);
        }
    }
    assert last == Completion(op, run.exit);
    queue.Enqueue(last);
    AppendAssoc(q0, outFeeds + errFeeds, [last]);
  }

  /**
    The thread-pool delegate of the asynchronous `Execute`, run to the end
    without interleaving. It appends exactly `WorkerActions` to the queue and
    binds the process when it starts one.
   */
  method RunWorker(op: Operation, queue: Dispatcher, launch: Launch)
    modifies queue`queue, op`process
    ensures queue.queue == old(queue.queue) + WorkerActions(op, old(op.killRequested), launch)
    ensures op.State() == if Binds(old(op.killRequested), launch)
                          then old(op.State()).(process := Some(launch.spawn.run.pid))
                          else old(op.State())
  {
    if launch.buildFault.Some? {
      queue.Enqueue(FaultAction(op, launch.buildFault.value));
      return;
    }
    if op.killRequested {
      assert old(queue.queue) + [] == old(queue.queue);
      return;
    }
    match launch.spawn
    case SpawnFault(m) =>
      queue.Enqueue(FaultAction(op, m));
    case Spawned(run) =>
      op.BindProcess(run.pid);
      EnqueueRun(op, queue, run);
  }

  /** The asynchronous `Execute`: a fresh operation; the delegate runs later, on a pool thread. */
  method Execute() returns (op: Operation)
    ensures fresh(op) && op.State() == Initial()
  {
    op := new Operation();
  }

  /**
    A run without exceptions enqueues one `Log` callback per stdout line,
    normalised, then one `Error` callback per delivered stderr line, then
    `FireDone` with the child's exit code, last.
   */
  lemma WorkerSuccess(op: Operation, pid: nat, outs: seq<string>, errs: seq<string>, code: int)
    ensures WorkerActions(op, false, Launch(None, Spawned(ProcessRun(pid, Lines(outs), Lines(errs), Exited(code, None)))))
      == Feeds(op, Log, NormalizeAll(outs)) + Feeds(op, Error, ErrorLines(errs)) + [DoneAction(op, code)]
  {
    ReadStdoutLines(outs);
    ReadStderrLines(errs);
  }

  /**
    An exception anywhere after the kill check ends the sequence with exactly
    one failure callback, after what was already enqueued, and no `FireDone`
    callback is enqueued at all.
   */
  lemma WorkerFailure(op: Operation, killRequested: bool, launch: Launch)
    requires !(launch.buildFault.None? && killRequested) && !Succeeds(launch)
    ensures var r := WorkerActions(op, killRequested, launch);
      r[|r| - 1].FaultAction? && forall i :: 0 <= i < |r| ==> !r[i].DoneAction?
  {
  }

  /** Observers that never throw. */
  predicate Quiet(h: Handler)
  {
    h.NoHandler? || h.throwsOn == {}
  }

  /** The log observer's calls for these lines. */
  function LogEvents(kind: LogType, texts: seq<string>): (r: seq<Event>)
    ensures |r| == |texts|
    ensures forall i :: 0 <= i < |texts| ==> r[i] == LogEvent(kind, texts[i])
  {
    seq(|texts|, i requires 0 <= i < |texts| => LogEvent(kind, texts[i]))
  }

  /**
    Draining a run of `FeedLog` callbacks with a quiet log observer: the
    observer sees every line in order, and `hasError` becomes true exactly
    when an `Error` line was fed.
   */
  lemma {:induction false} ReplayFeeds(s: OpState, op: Operation, kind: LogType, texts: seq<string>)
    requires Quiet(s.onLog)
    ensures Replay(s, Feeds(op, kind, texts))
      == s.(hasError := s.hasError || (kind == Error && |texts| > 0),
            observed := s.observed + (if s.onLog.Handler? then LogEvents(kind, texts) else []))
  {
    if |texts| > 0 {
      var n := |texts| - 1;
      assert Feeds(op, kind, texts)[..n] == Feeds(op, kind, texts[..n]);
      ReplayFeeds(s, op, kind, texts[..n]);
      assert LogEvents(kind, texts) == LogEvents(kind, texts[..n]) + [LogEvent(kind, texts[n])];
    } else {
      assert s.observed + [] == s.observed;
    }
  }

  /** Every callback of the worker acts on its own operation. */
  lemma {:induction false} ForOwn(acts: seq<Action>, op: Operation)
    requires forall a :: a in acts ==> !a.NullAction? && a.op == op
    ensures For(acts, op) == acts
  {
    if |acts| > 0 {
      var n := |acts| - 1;
      assert acts[n] in acts;
      ForOwn(acts[..n], op);
      assert acts[..n] + [acts[n]] == acts;
    }
  }

  /** Replaying a single callback is running it. */
  lemma ReplayOne(s: OpState, a: Action)
    ensures Replay(s, [a]) == Effect(s, a).0
  {
    assert [a][..0] == [];
  }

  /** Regrouping three traces. */
  lemma EventsAssoc(a: seq<Event>, b: seq<Event>, c: seq<Event>)
    ensures (a + b) + c == a + (b + c)
  {
  }

  /** Draining `Log` feeds, then `Error` feeds, with a quiet log observer. */
  lemma DrainFeeds(s: OpState, op: Operation, outs: seq<string>, errs: seq<string>)
    requires Quiet(s.onLog)
    ensures Replay(s, Feeds(op, Log, outs) + Feeds(op, Error, errs))
      == s.(hasError := s.hasError || |errs| > 0,
            observed := s.observed + (if s.onLog.Handler? then LogEvents(Log, outs) + LogEvents(Error, errs) else []))
  {
    var outFeeds := Feeds(op, Log, outs);
    var errFeeds := Feeds(op, Error, errs);
    ReplayAppend(s, outFeeds, errFeeds);
    ReplayFeeds(s, op, Log, outs);
    var s1 := Replay(s, outFeeds);
    assert s1.onLog == s.onLog && s1.hasError == s.hasError;
    ReplayFeeds(s1, op, Error, errs);
    var s2 := Replay(s1, errFeeds);
    assert s2.hasError == (s.hasError || |errs| > 0);
    var x := if s.onLog.Handler? then LogEvents(Log, outs) else [];
    var y := if s.onLog.Handler? then LogEvents(Error, errs) else [];
    assert s1.observed == s.observed + x;
    assert s2.observed == s1.observed + y;
    EventsAssoc(s.observed, x, y);
    assert (if s.onLog.Handler? then LogEvents(Log, outs) + LogEvents(Error, errs) else []) == x + y;
  }

  /** Draining `Log` feeds, then `Error` feeds, then `FireDone(code)`, with quiet observers. */
  lemma DrainFeedsThenDone(s: OpState, op: Operation, outs: seq<string>, errs: seq<string>, code: int)
    requires Quiet(s.onLog) && Quiet(s.onExit)
    ensures var t := Replay(s, Feeds(op, Log, outs) + Feeds(op, Error, errs) + [DoneAction(op, code)]);
      && t.isDone && t.exitCode == code
      && t.hasError == (s.hasError || |errs| > 0)
      && t.killRequested == s.killRequested && t.process == s.process
      && t.observed == s.observed
           + (if s.onLog.Handler? then LogEvents(Log, outs) + LogEvents(Error, errs) else [])
           + (if s.onExit.Handler? then [ExitEvent(code)] else [])
  {
    var feeds := Feeds(op, Log, outs) + Feeds(op, Error, errs);
    ReplayAppend(s, feeds, [DoneAction(op, code)]);
    DrainFeeds(s, op, outs, errs);
    ReplayOne(Replay(s, feeds), DoneAction(op, code));
  }

  /**
    End to end: when the worker's callbacks of a run without exceptions are
    drained into an operation with quiet observers, the observer sees every
    stdout line (normalised) as `Log`, then the delivered stderr lines as
    `Error`, then the exit code; the operation is done with that code, and
    has an error exactly when some stderr line was delivered.
   */
  lemma DrainedSuccess(s: OpState, op: Operation, pid: nat, outs: seq<string>, errs: seq<string>, code: int)
    requires Quiet(s.onLog) && Quiet(s.onExit)
    ensures var acts := WorkerActions(op, false, Launch(None, Spawned(ProcessRun(pid, Lines(outs), Lines(errs), Exited(code, None)))));
      var t := Replay(s, For(acts, op));
      && t.isDone && t.exitCode == code
      && t.hasError == (s.hasError || |ErrorLines(errs)| > 0)
      && t.killRequested == s.killRequested && t.process == s.process
      && t.observed == s.observed
           + (if s.onLog.Handler? then LogEvents(Log, NormalizeAll(outs)) + LogEvents(Error, ErrorLines(errs)) else [])
           + (if s.onExit.Handler? then [ExitEvent(code)] else [])
  {
    var launch := Launch(None, Spawned(ProcessRun(pid, Lines(outs), Lines(errs), Exited(code, None))));
    var acts := WorkerActions(op, false, launch);
    WorkerSuccess(op, pid, outs, errs, code);
    ForOwn(acts, op);
    DrainFeedsThenDone(s, op, NormalizeAll(outs), ErrorLines(errs), code);
  }

  /**
    A `Kill` before the worker looks: the operation completes at once with
    137, and the worker then enqueues nothing, so no line is ever fed.
   */
  lemma KillBeforeSpawn(op: Operation, launch: Launch)
    requires launch.buildFault.None?
    ensures var s := KillStep(Initial()).0;
      s.isDone && s.exitCode == KilledExitCode && WorkerActions(op, s.killRequested, launch) == []
  {
  }

  /**
    `FireDone` is not guarded. If `Kill` runs after the worker passed its
    check but before it bound the process, the operation completes with 137
    and later again with the child's code: the exit observer is called twice.
   */
  lemma KillRaceCompletesTwice(s: OpState, op: Operation, code: int)
    requires s == Initial().(onExit := Handler({}))
    ensures var killed := KillStep(s).0;
      var t := Effect(killed, DoneAction(op, code)).0;
      t.observed == [ExitEvent(KilledExitCode), ExitEvent(code)] && t.exitCode == code
  {
  }

  /**
    `BuildStartInfo` runs before the worker checks for a kill. If it throws
    after a `Kill` has already completed the operation with 137, the failure
    callback is still enqueued, and draining it completes the operation a
    second time, with -1.
   */
  lemma KillThenBuildFaultCompletesTwice(op: Operation, message: string, spawn: Spawn)
    ensures var killed := KillStep(Initial().(onLog := Handler({}), onExit := Handler({}))).0;
      var acts := WorkerActions(op, killed.killRequested, Launch(Some(message), spawn));
      var t := Replay(killed, acts);
      && acts == [FaultAction(op, message)]
      && t.observed == [ExitEvent(KilledExitCode), LogEvent(Error, message), ExitEvent(FaultExitCode)]
      && t.isDone && t.exitCode == FaultExitCode
  {
    var killed := KillStep(Initial().(onLog := Handler({}), onExit := Handler({}))).0;
    ReplayOne(killed, FaultAction(op, message));
  }

  /**
    The failure callback feeds its `Error` line first; if the log observer
    throws on that line, `FireDone(-1)` never runs and `hasError` is not set.
   */
  lemma FaultWithThrowingObserver(s: OpState, op: Operation, message: string)
    requires !s.isDone && !s.hasError && Throws(s.onLog, LogEvent(Error, message))
    ensures var r := Effect(s, FaultAction(op, message));
      r.1 && !r.0.isDone && !r.0.hasError
  {
  }
}
