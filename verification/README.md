# EditorShell, modelled in Dafny

This project models `EditorShell`, the Unity editor helper that runs shell
commands (`cmd.exe /c` on Windows, `bash -c` on macOS and Linux) and reports
their output. The parts modelled are:

- **Path lists.** `JoinPaths` is a `StringBuilder` loop that joins paths with
  the platform's separator. `GetPaths` splits `PATH` on that separator.
- **Start info.** `BuildStartInfo` does three things:
  - picks the chaining token with `Options.GetProcessingSymbol`;
  - builds the argument string `flag + " \"" + Join(token, cmds) + " \""`;
  - merges the option's environment variables into the child's environment.
- **Line capture.** Both `Execute` variants read the same way:
  - stdout is read to the end of the stream, and each line has `\` replaced
    by `/`;
  - stderr is read up to the first empty line and is delivered unchanged.
- **The synchronous `Execute`.** Its two read loops collect a log list.
- **The asynchronous `Execute`.** It returns an `Operation` at once. A
  pool-thread delegate then enqueues one callback per captured line, a final
  `FireDone`, or a failure callback if anything throws.
- **The callback queue.** `Enqueue` appends. `OnUpdate` runs the head and
  removes it in a `finally`, until the list is empty. This includes
  callbacks that arrive while it drains.
- **`Operation`.** Its state is `_killRequested`, `_process`, `hasError`,
  `isDone` and `exitCode`. Its methods are `Kill`, `FeedLog`, `FireDone` and
  `BindProcess`.

The C# code chooses the platform with preprocessor symbols. Here the platform
is an ordinary parameter, `Host.Platform = Windows | Posix`.

The operating system appears only as given data:
- A stream is a sequence of `ReadLine` results: a line, or a read that
  throws. The end of the sequence is the `null` at the end of the stream.
- A `Launch` records two things: whether `BuildStartInfo` throws, and what
  `Process.Start` yields. What it yields is a pid, the two streams and how
  `WaitForExit`/`ExitCode`/`Close` end.
- `ExpandEnvironmentVariables` is an uninterpreted function `expand`.
- The inherited environment and the OEM encoding are parameters.

Observers of `onLog`/`onExit` are modelled as one handler per event. A
handler either is absent, or throws on a chosen set of calls. Every call
made to a handler is recorded in a trace, `observed`. Every OS-level kill is
recorded in `killSignals`.

Modules, one per file:

| module | file | contents |
|---|---|---|
| `Wrappers` | Wrappers.dfy | `Option` |
| `Host` | Host.dfy | platform, shell executable, shell flag, `PATH` separator |
| `Paths` | Paths.dfy | `Join`, `Split`, `JoinPaths`, `GetPaths` and their round trips |
| `Commands` | Commands.dfy | `Options`, `GetProcessingSymbol`, argument string, environment merge, `StartInfo`, `BuildStartInfo` |
| `Capture` | Capture.dfy | normalisation, the stdout and stderr reading rules, the synchronous `Execute` |
| `Operations` | Operations.dfy | `Operation`, its step functions and its class |
| `Dispatch` | Dispatch.dfy | the callbacks, what running one does, the queue class with `Enqueue`/`OnUpdate` |
| `Worker` | Worker.dfy | the asynchronous `Execute` and its delegate's enqueue sequence |

## Model

| member | source | states |
|---|---|---|
| Host.ShellApp | Editor/EditorShell.cs:14-25 | the shell executable: `cmd.exe` on Windows, `bash` on macOS and Linux |
| Host.ShellFlag | Editor/EditorShell.cs:85-89 | the first argument: `/c` on Windows, `-c` on macOS and Linux |
| Host.PathSplitChar | Editor/EditorShell.cs:27-33 | the `PATH` separator: `;` on Windows, `:` on macOS and Linux |
| Paths.Join | Editor/EditorShell.cs:109 | `string.Join`: "" for no items, the items with the separator between consecutive ones otherwise; its properties are the `Join…` and `Split…` lemmas |
| Paths.Split | Editor/EditorShell.cs:56 | `String.Split` on one character: the maximal runs between separators, empty runs kept, at least one part |
| Paths.JoinPaths | Editor/EditorShell.cs:43-52 | the builder loop yields the paths with the platform separator between consecutive ones (`Join`) |
| Paths.JoinSnoc | Editor/EditorShell.cs:45-50 | appending one more path appends one separator and the path |
| Paths.JoinPathsSeparators | Editor/EditorShell.cs:43-52 | an empty array gives ""; for separator-free paths the result has exactly N-1 separators |
| Paths.JoinEnds | Editor/EditorShell.cs:43-52 | for a non-empty array, the first path is a prefix of the result and the last path a suffix (an empty end path leaves a separator at that end) |
| Paths.JoinLength | Editor/EditorShell.cs:43-52 | the result's length is the paths' total length plus N-1 separators |
| Paths.GetPaths | Editor/EditorShell.cs:54-57 | a missing `PATH` throws (`None`); otherwise the parts are one more than the separators, hold no separator, and join back to the value |
| Paths.SplitCount | Editor/EditorShell.cs:56 | `Split` returns one more part than there are separators |
| Paths.SplitParts | Editor/EditorShell.cs:56 | no part of a split holds the separator |
| Paths.JoinSplit | Editor/EditorShell.cs:56 | joining the parts of a split with the separator gives the string back |
| Paths.SplitJoin | Editor/EditorShell.cs:43-57 | for at least one path, splitting the join of separator-free paths gives the paths back (no paths join to "", which splits to `[""]`) |
| Commands.DefaultOptions | Editor/EditorShell.cs:291-295 | `new Options()`: the OEM encoding, "./", an empty variable map, success-only chaining |
| Commands.Effective | Editor/EditorShell.cs:90-92 | null options stand for `new Options()` |
| Commands.ChildEnvironment | Editor/EditorShell.cs:93-106 | the inherited environment, merged with the option's variables unless the map is null |
| Commands.ArgumentString | Editor/EditorShell.cs:109 | the shell flag, ` "`, the joined commands, ` "`; its shape is `ArgumentStringShape` |
| Commands.GetProcessingSymbol | Editor/EditorShell.cs:297-310 | "&&" exactly for success-only and out-of-range values; the OR token exactly for failure-only; "&" on Windows and ";" elsewhere exactly for always-run; always a list operator of the shell |
| Commands.PolicyOfSymbol | Editor/EditorShell.cs:297-310 | the token determines the named policy; an out-of-range value reads back as the default |
| Commands.ArgumentStringShape | Editor/EditorShell.cs:109 | the argument string is the flag, ` "`, the commands with N-1 tokens between them, ` "`; its payload is exactly the join |
| Commands.AlwaysExecRoundTrip | Editor/EditorShell.cs:109 | with the one-character always-run token, a non-empty command list none of whose commands contains the token is recovered by splitting the payload |
| Commands.MergeEnv | Editor/EditorShell.cs:93-106 | keys are the inherited keys plus the option keys; option keys map to the expanded value; other keys keep their value |
| Commands.MergeEmpty | Editor/EditorShell.cs:93-106 | an empty variable map leaves the environment unchanged |
| Commands.MergeIdempotent | Editor/EditorShell.cs:93-106 | merging the same variables twice equals merging once |
| Commands.MergeSize | Editor/EditorShell.cs:96-104 | overriding existing keys keeps the number of entries: a key is never added twice |
| Commands.ChildEnvironmentUntouched | Editor/EditorShell.cs:93-106 | a null or empty variable map leaves the inherited environment untouched |
| Commands.StartInfo.constructor | Editor/EditorShell.cs:84 | a new start info names the shell and inherits the current environment |
| Commands.StartInfo.SetProcessOptions | Editor/EditorShell.cs:110-118 | no window, error dialog, no shell execute, the working directory, all three streams redirected with the option's encoding |
| Commands.StartInfo.MergeEnvironment | Editor/EditorShell.cs:93-106 | the `foreach` leaves the environment equal to `MergeEnv` of the old one, whichever branch each key took |
| Commands.BuildStartInfo | Editor/EditorShell.cs:82-121 | null options mean the defaults; executable, argument string, merged environment, working directory ("./" when null), encodings and flags are as listed |
| Capture.Normalize | Editor/EditorShell.cs:164 | same length; each `\` becomes `/` and every other character stays; no backslash remains |
| Capture.NormalizeIdempotent | Editor/EditorShell.cs:164 | normalising again changes nothing |
| Capture.NormalizeFree | Editor/EditorShell.cs:164 | a line without backslashes is delivered unchanged |
| Capture.ReadStdout | Editor/EditorShell.cs:159-166 | the lines are the stream's leading lines; without a fault, all of them; with one, it is the read right after them |
| Capture.ReadStderr | Editor/EditorShell.cs:167-173 | the lines are non-empty leading lines; reading stops at the end, at the first empty line, or at a read that throws |
| Capture.ErrorLines | Editor/EditorShell.cs:167-173 | the delivered stderr lines are the longest all-non-empty prefix of the stream |
| Capture.ReadStdoutLines | Editor/EditorShell.cs:159-166 | without faults every stdout line is captured |
| Capture.ReadStderrLines | Editor/EditorShell.cs:167-173 | without faults the captured stderr lines are exactly `ErrorLines` |
| Capture.StdoutStop | Editor/EditorShell.cs:159-166 | where the stdout loop stops, what it read is the whole capture |
| Capture.StderrStop | Editor/EditorShell.cs:167-173 | where the stderr loop stops (end, empty line, fault), what it read is the whole capture |
| Capture.OutputLogs | Editor/EditorShell.cs:164-165 | definition: one `Log` entry per line, normalised, in order; `CollectStdout` and `SyncLogs` are proved against it |
| Capture.ErrorLogs | Editor/EditorShell.cs:172 | definition: one `Error` entry per line, unchanged, in order; `CollectStderr` and `SyncLogs` are proved against it |
| Capture.SyncOutcome | Editor/EditorShell.cs:154-176 | what the synchronous `Execute` yields: the first exception of build, start, the two read loops and the wait, or the exit code with the `Log` entries then the `Error` entries |
| Capture.CollectStdout | Editor/EditorShell.cs:159-166 | the first loop's log list is `OutputLogs` of the captured lines; a throwing read ends it with that exception |
| Capture.CollectStderr | Editor/EditorShell.cs:167-173 | the second loop's log list is `ErrorLogs` of the delivered lines; a throwing read ends it with that exception |
| Capture.ExecuteSync | Editor/EditorShell.cs:154-176 | the result is the exit code and the stdout logs followed by the stderr logs, or the first exception |
| Capture.SyncLogs | Editor/EditorShell.cs:154-176 | without exceptions the log list is all normalised stdout lines as `Log`, then the delivered stderr lines as `Error` |
| Capture.SyncLogsNormalized | Editor/EditorShell.cs:164-165 | no `Log` entry of a synchronous run holds a backslash |
| Operations.Notify | Editor/EditorShell.cs:326-328 | definition: a present observer is called once (recorded) and may throw; an absent one is skipped; its properties are stated by `FeedLogStep` and `FireDoneStep` |
| Operations.FeedLogStep | Editor/EditorShell.cs:325-332 | the observer is called first; `hasError` is set by an `Error` line unless the observer threw; nothing else changes |
| Operations.FireDoneStep | Editor/EditorShell.cs:365-371 | code and done flag are set before the observer runs; no guard against a second call |
| Operations.KillStep | Editor/EditorShell.cs:340-351 | no-op once requested; otherwise sets the flag and either kills and forgets the process or completes with 137 |
| Operations.KillTwice | Editor/EditorShell.cs:341-343 | a second `Kill` is a no-op |
| Operations.KillBoundProcess | Editor/EditorShell.cs:345-347 | with a bound process: one kill signal, process cleared, not completed |
| Operations.KillUnbound | Editor/EditorShell.cs:348-350 | with no process: completes with 137, exit observer called once, no signal |
| Operations.Operation.constructor | Editor/EditorShell.cs:313-319 | a new operation: nothing requested, nothing bound, not done, no observers |
| Operations.Operation.SetLogHandler | Editor/EditorShell.cs:314 | subscribing changes only the log observer |
| Operations.Operation.SetExitHandler | Editor/EditorShell.cs:315 | subscribing changes only the exit observer |
| Operations.Operation.BindProcess | Editor/EditorShell.cs:321-323 | only the bound process changes |
| Operations.Operation.FeedLog | Editor/EditorShell.cs:325-332 | the new state is `FeedLogStep` of the old one; `hasError` never goes back to false |
| Operations.Operation.FireDone | Editor/EditorShell.cs:365-371 | the new state is `FireDoneStep` of the old one |
| Operations.Operation.Kill | Editor/EditorShell.cs:340-351 | the new state is `KillStep` of the old one; the kill flag is set |
| Dispatch.Effect | Editor/EditorShell.cs:220-254 | running a callback: null does nothing; `FireDone` completes with its code; `hasError`/`isDone` never reset; kill flag and process untouched |
| Dispatch.FaultCompletes | Editor/EditorShell.cs:251-254 | when the log observer does not throw on the error line, the failure callback feeds its line as `Error` and then completes with -1, observers seeing both in that order |
| Dispatch.ReplayMonotone | Editor/EditorShell.cs:325-371 | after any sequence of callbacks `hasError` and `isDone` stay set, and the kill flag and the bound process are unchanged |
| Dispatch.Replay | Editor/EditorShell.cs:59-74 | the state reached by running callbacks in order, each by `Effect` |
| Dispatch.ForSelects | Editor/EditorShell.cs:59-74 | a callback is among those selected for an operation exactly when it is non-null and acts on that operation (the order is kept, by `ForSnoc`/`ForAppend`) |
| Dispatch.ReplayAppend | Editor/EditorShell.cs:59-74 | running two runs of callbacks in turn is running their concatenation |
| Dispatch.ForAppend | Editor/EditorShell.cs:59-74 | an operation's callbacks in a concatenation are its callbacks in each part |
| Dispatch.Dispatcher.constructor | Editor/EditorShell.cs:35-38 | the queue starts empty |
| Dispatch.Dispatcher.Enqueue | Editor/EditorShell.cs:76-80 | appends at the tail; entries already queued are unchanged |
| Dispatch.Dispatcher.Run | Editor/EditorShell.cs:63-68 | a callback changes only its own operation, as `Effect` says, an exception being caught |
| Dispatch.Dispatcher.RunHead | Editor/EditorShell.cs:62-71 | the head is run unless null and removed whatever happened |
| Dispatch.Dispatcher.Turn | Editor/EditorShell.cs:60-73 | one turn moves only the head's operation one step |
| Dispatch.Dispatcher.OnUpdate | Editor/EditorShell.cs:59-74 | ends with an empty queue; runs every queued and arriving callback once, in FIFO order; each operation ends in the state its own callbacks lead to |
| Worker.Completion | Editor/EditorShell.cs:240-254 | the last callback is terminal and on this operation; it is `FireDone` exactly when the wait and the close both succeed, carrying the child's exit code; otherwise it is the failure callback carrying the wait's or the close's exception |
| Worker.RunActions | Editor/EditorShell.cs:220-254 | after the start: the stdout feeds, then (unless stdout threw) the stderr feeds, closed by the failure callback of the first exception or by `Completion` |
| Worker.WorkerActions | Editor/EditorShell.cs:197-256 | when `BuildStartInfo` throws, the failure callback alone, even after a kill; otherwise nothing if a kill came first; otherwise feeds closed by exactly one terminal callback, `FireDone` exactly on success; all on this operation; no `Log` text holds a backslash |
| Worker.EnqueueStdout | Editor/EditorShell.cs:220-229 | appends one `Log` feed per captured stdout line, normalised |
| Worker.EnqueueStderr | Editor/EditorShell.cs:231-239 | appends one `Error` feed per delivered stderr line |
| Worker.EnqueueRun | Editor/EditorShell.cs:220-254 | after the start, appends exactly the run's callbacks |
| Worker.RunWorker | Editor/EditorShell.cs:197-256 | the delegate appends exactly `WorkerActions` and binds the process when it starts one |
| Worker.Execute | Editor/EditorShell.cs:195-196 | returns a fresh operation in its initial state |
| Worker.WorkerSuccess | Editor/EditorShell.cs:220-245 | a run without exceptions enqueues the stdout feeds, then the stderr feeds, then `FireDone(code)` last |
| Worker.WorkerFailure | Editor/EditorShell.cs:246-254 | any exception ends the sequence with one failure callback and no `FireDone` callback |
| Worker.ReplayFeeds | Editor/EditorShell.cs:226-238 | feeding lines to a quiet observer records them in order and sets `hasError` exactly for a non-empty `Error` run |
| Worker.DrainFeeds | Editor/EditorShell.cs:220-239 | with a quiet log observer, draining the stdout feeds then the stderr feeds records both in order |
| Worker.DrainFeedsThenDone | Editor/EditorShell.cs:220-245 | with quiet log and exit observers, the same, then `FireDone`: the operation is done with the code and the exit observer sees it last |
| Worker.DrainedSuccess | Editor/EditorShell.cs:220-245 | with quiet log and exit observers, end to end for a successful run: lines, then the code, reach the observers; `hasError` exactly when stderr delivered a line |
| Worker.KillBeforeSpawn | Editor/EditorShell.cs:203-205 | when `BuildStartInfo` does not throw, a kill before the check completes the operation with 137, and the delegate enqueues nothing |
| Worker.KillRaceCompletesTwice | Editor/EditorShell.cs:365-371 | a kill between the check and the bind completes twice: the exit observer sees 137, then the child's code |
| Worker.KillThenBuildFaultCompletesTwice | Editor/EditorShell.cs:201-205 | a `BuildStartInfo` that throws after a kill still enqueues its failure callback: with quiet observers the operation completes with 137, the error line is fed, and it completes again with -1 |
| Worker.FaultWithThrowingObserver | Editor/EditorShell.cs:251-254 | if the log observer throws on the error line, `FireDone(-1)` is never reached |

## Left out

- Process I/O (`Process.Start`, `ReadLine`, `WaitForExit`, `ExitCode`, `Close`, `Process.Kill`) is not modelled. Its outcomes are inputs: a `Launch`, streams of reads, and an `Exit`. A throwing `Process.Kill` inside `Kill` is not modelled; the kill is recorded in `killSignals`. The main consequence: the worker closes the process (source lines 242 and 249) and never clears `_process`, so in the source any `Kill()` after the run finished throws out of `Kill` and leaves `_process` set, whereas `KillStep` and `KillBoundProcess` record a signal and clear the process.
- `p.Close()` in the worker's `catch` block may itself throw. That is not modelled: the failure callback is always enqueued.
- Worker.Execute: only creates the operation. Queueing the delegate on the thread pool is not modelled; `RunWorker` stands for the delegate's later run.
- The thread pool, the `lock` statements and the unlocked `_queue.Count` read are not modelled. The delegate runs to completion as one step (`RunWorker`). Interleaving with the main thread appears only as `OnUpdate`'s `arrivals` and as explicit races (`KillRaceCompletesTwice`).
- `EditorApplication.update` registration, `UnityEngine.Debug` logging and `LogException` are host plumbing. They are not modelled. Nor are the debug handlers: `ErrorDataReceived`/`OutputDataReceived` never fire because asynchronous reading is not started, and `Exited` never fires because `EnableRaisingEvents` is never set.
- `GetAwaiter` and `ShellOperationAwaiter` are not modelled; `CompilerServices.ShellOperationAwaiter` is not part of this model. The `[Obsolete]` `ExecuteSync` wrappers and the single-command `Execute` overloads are not modelled either; they only forward.
- The platform is a parameter, not preprocessor selection. The third arm of `shellApp` (neither Windows nor macOS/Linux) lacks its semicolon, so it cannot compile, and it is not modelled.
- Event multicast (`+=`/`-=` with several subscribers) is reduced to one handler per event that throws on a chosen set of calls.
- Dispatch.Effect: observers can only be recorded and maybe throw; they cannot act on the operation. A re-entrant `Kill()` from an `onLog`/`onExit` observer in the middle of a drain, which would set `_killRequested` and kill and clear `_process`, is not modelled, so the clause that the kill flag and the bound process are unchanged holds only for such observers.
- Dispatch.ReplayMonotone: the kill flag and the bound process are unchanged over a run of callbacks only because observers cannot call `Kill()`; the same restriction underlies those conjuncts of `DrainFeedsThenDone` and `DrainedSuccess`.
- Environment keys are compared exactly. The case-insensitive key comparison of Windows environments is not modelled. Nor is the iteration order of the option dictionary, which does not change the result.
- `Environment.GetEnvironmentVariable`, `ExpandEnvironmentVariables` and `Encoding.GetEncoding` are foreign calls. They become, in order: an `Option` input, an uninterpreted function, and an opaque `Encoding` value.
- Null entries are not modelled: null commands, null environment values and null `cmds`. A failure while building the start info appears only as `Launch.buildFault`.
