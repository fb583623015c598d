/**
  Line capture. A child's stdout is read to end of stream and every line has
  its backslashes turned into forward slashes; its stderr is read only up to
  the first empty line (or end of stream) and delivered as it is. Both the
  synchronous `Execute` and the asynchronous worker follow these rules.

  A stream is a sequence of reads: a line, or a read that throws; the end
  of the sequence is the end of the stream (`ReadLine` returns null).
 */
module Capture {
  import opened Wrappers

  /** `LogType`. */
  datatype LogType = Log | Error

  /** `LogInfo`: one captured line with its kind. */
  datatype LogInfo = LogInfo(kind: LogType, message: string)

  /** One `ReadLine` call: a line, or an exception with its description. */
  datatype Read = Line(text: string) | ReadFault(message: string)

  /**
    The end of a run: `WaitForExit` and `ExitCode` either give a code (and
    the later `Close` may still throw) or throw.
   */
  datatype Exit = Exited(code: int, closeFault: Option<string>) | WaitFault(message: string)

  /** What the started process does, as seen through its handle. */
  datatype ProcessRun = ProcessRun(pid: nat, stdout: seq<Read>, stderr: seq<Read>, exit: Exit)

  /** `Process.Start`: the started process, or the exception it throws. */
  datatype Spawn = Spawned(run: ProcessRun) | SpawnFault(message: string)

  /**
    Everything the operating system contributes to one execution:
    whether `BuildStartInfo` throws (say, expanding a null value) and what
    `Process.Start` yields.
   */
  datatype Launch = Launch(buildFault: Option<string>, spawn: Spawn)

  /** The lines read from a stream before it stopped, and the exception that stopped it, if any. */
  datatype Captured = Captured(lines: seq<string>, fault: Option<string>)

  /** `line.Replace("\\", "/")`. */
  function Normalize(line: string): (r: string)
    ensures |r| == |line|
    ensures forall i :: 0 <= i < |line| ==> r[i] == (if line[i] == '\\' then '/' else line[i])
    ensures '\\' !in r
  {
    if |line| == 0 then ""
    else [if line[0] == '\\' then '/' else line[0]] + Normalize(line[1..])
  }

  /** Normalising twice changes nothing more than normalising once. */
  lemma NormalizeIdempotent(line: string)
    ensures Normalize(Normalize(line)) == Normalize(line)
  {
  }

  /** A line that holds no backslash is delivered unchanged. */
  lemma {:induction false} NormalizeFree(line: string)
    requires '\\' !in line
    ensures Normalize(line) == line
  {
    if |line| > 0 {
      NormalizeFree(line[1..]);
      assert [line[0]] + line[1..] == line;
    }
  }

  /** The stream that yields these lines and then ends. */
  function Lines(texts: seq<string>): (rs: seq<Read>)
    ensures |rs| == |texts|
    ensures forall i :: 0 <= i < |texts| ==> rs[i] == Line(texts[i])
  {
    seq(|texts|, i requires 0 <= i < |texts| => Line(texts[i]))
  }

  /** The stdout loop: lines up to the end of the stream or the first read that throws. */
  function ReadStdout(rs: seq<Read>): (c: Captured)
    ensures |c.lines| <= |rs|
    ensures forall i :: 0 <= i < |c.lines| ==> rs[i] == Line(c.lines[i])
    ensures c.fault.None? ==> |c.lines| == |rs|
    ensures c.fault.Some? ==> |c.lines| < |rs| && rs[|c.lines|] == ReadFault(c.fault.value)
  {
    if |rs| == 0 then Captured([], None)
    else match rs[0]
      case ReadFault(m) => Captured([], Some(m))
      case Line(t) =>
        var rest := ReadStdout(rs[1..]);
        Captured([t] + rest.lines, rest.fault)
  }

  /**
    The stderr loop: lines up to the end of the stream, the first empty line
    (`string.IsNullOrEmpty`), or the first read that throws.
   */
  function ReadStderr(rs: seq<Read>): (c: Captured)
    ensures |c.lines| <= |rs|
    ensures forall i :: 0 <= i < |c.lines| ==> rs[i] == Line(c.lines[i]) && c.lines[i] != ""
    ensures c.fault.None? ==> |c.lines| == |rs| || rs[|c.lines|] == Line("")
    ensures c.fault.Some? ==> |c.lines| < |rs| && rs[|c.lines|] == ReadFault(c.fault.value)
  {
    if |rs| == 0 then Captured([], None)
    else match rs[0]
      case ReadFault(m) => Captured([], Some(m))
      case Line(t) =>
        if t == "" then Captured([], None)
        else
          var rest := ReadStderr(rs[1..]);
          Captured([t] + rest.lines, rest.fault)
  }

  /**
    The stderr lines that are delivered: the longest prefix of the stream
    whose lines are all non-empty.
   */
  function ErrorLines(lines: seq<string>): (r: seq<string>)
    ensures |r| <= |lines| && r == lines[..|r|]
    ensures forall i :: 0 <= i < |r| ==> r[i] != ""
    ensures |r| < |lines| ==> lines[|r|] == ""
  {
    if |lines| == 0 || lines[0] == "" then []
    else [lines[0]] + ErrorLines(lines[1..])
  }

  /** Without exceptions, stdout capture returns every line of the stream. */
  lemma {:induction false} ReadStdoutLines(texts: seq<string>)
    ensures ReadStdout(Lines(texts)) == Captured(texts, None)
  {
    if |texts| > 0 {
      ReadStdoutLines(texts[1..]);
      assert Lines(texts)[1..] == Lines(texts[1..]);
      assert [texts[0]] + texts[1..] == texts;
    }
  }

  /**
    Without exceptions, stderr capture returns exactly the longest all
    non-empty prefix of the stream; what follows an empty line is dropped.
   */
  lemma {:induction false} ReadStderrLines(texts: seq<string>)
    ensures ReadStderr(Lines(texts)) == Captured(ErrorLines(texts), None)
  {
    if |texts| > 0 && texts[0] != "" {
      ReadStderrLines(texts[1..]);
      assert Lines(texts)[1..] == Lines(texts[1..]);
    }
  }

  /** The first `|seen|` reads of the stream are the lines `seen`. */
  predicate ReadSoFar(rs: seq<Read>, seen: seq<string>)
  {
    |seen| <= |rs| && forall k :: 0 <= k < |seen| ==> rs[k] == Line(seen[k])
  }

  /**
    Where the stdout loop stops, after reading `seen`: at the end of the
    stream, or at a read that throws.
   */
  lemma {:induction false} StdoutStop(rs: seq<Read>, seen: seq<string>)
    requires ReadSoFar(rs, seen)
    ensures |seen| == |rs| ==> ReadStdout(rs) == Captured(seen, None)
    ensures |seen| < |rs| && rs[|seen|].ReadFault? ==> ReadStdout(rs) == Captured(seen, Some(rs[|seen|].message))
  {
    if |seen| > 0 {
      StdoutStop(rs[1..], seen[1..]);
      assert [seen[0]] + seen[1..] == seen;
    }
  }

  /**
    Where the stderr loop stops, after reading the non-empty lines `seen`:
    at the end of the stream, at an empty line, or at a read that throws.
   */
  lemma {:induction false} StderrStop(rs: seq<Read>, seen: seq<string>)
    requires ReadSoFar(rs, seen) && forall k :: 0 <= k < |seen| ==> seen[k] != ""
    ensures |seen| == |rs| ==> ReadStderr(rs) == Captured(seen, None)
    ensures |seen| < |rs| && rs[|seen|] == Line("") ==> ReadStderr(rs) == Captured(seen, None)
    ensures |seen| < |rs| && rs[|seen|].ReadFault? ==> ReadStderr(rs) == Captured(seen, Some(rs[|seen|].message))
  {
    if |seen| > 0 {
      StderrStop(rs[1..], seen[1..]);
      assert [seen[0]] + seen[1..] == seen;
    }
  }

  /** Captured stdout lines as `Log` entries, normalised, in stream order. */
  function OutputLogs(lines: seq<string>): (r: seq<LogInfo>)
    ensures |r| == |lines|
    ensures forall i :: 0 <= i < |lines| ==> r[i] == LogInfo(Log, Normalize(lines[i]))
  {
    seq(|lines|, i requires 0 <= i < |lines| => LogInfo(Log, Normalize(lines[i])))
  }

  /** Captured stderr lines as `Error` entries, unchanged, in stream order. */
  function ErrorLogs(lines: seq<string>): (r: seq<LogInfo>)
    ensures |r| == |lines|
    ensures forall i :: 0 <= i < |lines| ==> r[i] == LogInfo(Error, lines[i])
  {
    seq(|lines|, i requires 0 <= i < |lines| => LogInfo(Error, lines[i]))
  }

  /** One more stdout line adds one more `Log` entry at the end. */
  lemma OutputLogsSnoc(lines: seq<string>, line: string)
    ensures OutputLogs(lines + [line]) == OutputLogs(lines) + [LogInfo(Log, Normalize(line))]
  {
  }

  /** One more stderr line adds one more `Error` entry at the end. */
  lemma ErrorLogsSnoc(lines: seq<string>, line: string)
    ensures ErrorLogs(lines + [line]) == ErrorLogs(lines) + [LogInfo(Error, line)]
  {
  }

  /** What the synchronous `Execute` gives its caller: the exit code and the logs, or an exception. */
  datatype SyncResult = Completed(exitCode: int, logs: seq<LogInfo>) | Threw(message: string)

  /** The result the synchronous `Execute` produces for a launch. */
  function SyncOutcome(launch: Launch): SyncResult
  {
    if launch.buildFault.Some? then Threw(launch.buildFault.value)
    else match launch.spawn
      case SpawnFault(m) => Threw(m)
      case Spawned(run) =>
        var out := ReadStdout(run.stdout);
        if out.fault.Some? then Threw(out.fault.value)
        else
          var err := ReadStderr(run.stderr);
          if err.fault.Some? then Threw(err.fault.value)
          else match run.exit
            case WaitFault(m) => Threw(m)
            case Exited(code, _) => Completed(code, OutputLogs(out.lines) + ErrorLogs(err.lines))
  }

  /**
    The first loop of the synchronous `Execute`: each stdout line, normalised,
    becomes a `Log` entry; a read that throws ends the loop with its exception.
   */
  method CollectStdout(rs: seq<Read>) returns (logs: seq<LogInfo>, fault: Option<string>)
    ensures fault == ReadStdout(rs).fault
    ensures fault.None? ==> logs == OutputLogs(ReadStdout(rs).lines)
  {
    logs := [];
    ghost var seen: seq<string> := [];
    var i := 0;
    while i < |rs|
      invariant i == |seen| && ReadSoFar(rs, seen)
      invariant logs == OutputLogs(seen)
    {
      match rs[i]
      case ReadFault(m) =>
        StdoutStop(rs, seen);
        return logs, Some(m);
      case Line(line) =>
        OutputLogsSnoc(seen, line);
        logs := logs + [LogInfo(Log, Normalize(line))];
        seen := seen + [line];
        i := i + 1;
    }
    StdoutStop(rs, seen);
    fault := None;
  }

  /**
    The second loop: each stderr line becomes an `Error` entry, up to the
    first empty line or the end; a read that throws ends it with its exception.
   */
  method CollectStderr(rs: seq<Read>) returns (logs: seq<LogInfo>, fault: Option<string>)
    ensures fault == ReadStderr(rs).fault
    ensures fault.None? ==> logs == ErrorLogs(ReadStderr(rs).lines)
  {
    logs := [];
    ghost var seen: seq<string> := [];
    var j := 0;
    while j < |rs|
      invariant j == |seen| && ReadSoFar(rs, seen)
      invariant forall k :: 0 <= k < |seen| ==> seen[k] != ""
      invariant logs == ErrorLogs(seen)
    {
      match rs[j]
      case ReadFault(m) =>
        StderrStop(rs, seen);
        return logs, Some(m);
      case Line(error) =>
        if error == "" {
          break;
        }
        ErrorLogsSnoc(seen, error);
        logs := logs + [LogInfo(Error, error)];
        seen := seen + [error];
        j := j + 1;
    }
    StderrStop(rs, seen);
    fault := None;
  }

  /**
    The synchronous `Execute`: start the process, read stdout into the log
    list, then stderr, wait, and return the exit code. An exception at any
    step reaches the caller.
   */
  method ExecuteSync(launch: Launch) returns (r: SyncResult)
    ensures r == SyncOutcome(launch)
  {
    if launch.buildFault.Some? {
      return Threw(launch.buildFault.value);
    }
    if launch.spawn.SpawnFault? {
      return Threw(launch.spawn.message);
    }
    var run := launch.spawn.run;
    var outLogs, outFault := CollectStdout(run.stdout);
    if outFault.Some? {
      return Threw(outFault.value);
    }
    var errLogs, errFault := CollectStderr(run.stderr);
    if errFault.Some? {
      return Threw(errFault.value);
    }
    match run.exit
    case WaitFault(m) =>
      return Threw(m);
    case Exited(code, _) =>
      return Completed(code, outLogs + errLogs);
  }

  /**
    A run without exceptions: the log list is every stdout line, normalised,
    as `Log`, then the delivered stderr lines as `Error`, each stream in its
    own order, and the exit code is the child's.
   */
  lemma SyncLogs(pid: nat, outs: seq<string>, errs: seq<string>, code: int, closeFault: Option<string>)
    ensures SyncOutcome(Launch(None, Spawned(ProcessRun(pid, Lines(outs), Lines(errs), Exited(code, closeFault)))))
      == Completed(code, OutputLogs(outs) + ErrorLogs(ErrorLines(errs)))
  {
    ReadStdoutLines(outs);
    ReadStderrLines(errs);
  }

  /** Every `Log` entry of a synchronous run is a normalised line: it holds no backslash. */
  lemma SyncLogsNormalized(launch: Launch)
    requires SyncOutcome(launch).Completed?
    ensures forall e :: e in SyncOutcome(launch).logs && e.kind == Log ==> '\\' !in e.message
  {
  }
}
