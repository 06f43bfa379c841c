# Shell executor supervisor, modelled in Dafny

The PHP library `ShellExecutor` runs a shell command as a detached background
process and waits for it, for a bounded time. It wraps the command so that
the shell writes the background pid into a *process-id marker* file. The
shell also touches a *success marker* when the command exits zero. The
supervisor then finds the pid with a bounded retry loop and polls
`/proc/<pid>` once per timer tick. When the timer's budget runs out it kills
the process. A timeout carries the pid and the command line, and a lookup
that never finds the pid ends in "process was not created". On a normal exit
the library means to return the command's stdout, or to fail with its
stderr when the success marker is missing. As written, that exit reads a
stderr pipe the default descriptor table never opens
(src/ShellExecutor.php:138) and indexes the `Files` object like an array
(src/ShellExecutor.php:142), which is a PHP error. The model gives the
intended `Ok(stdout)` / `Failed(stderr)` outcomes there, and "## Left out"
records both departures.

The model has four modules:

- `Wrappers` holds `Option`.
- `Timer` is the interval timer. It holds the timeout in seconds and the poll
  interval in microseconds, computes the poll budget from them, and counts
  sleeps as ticks.
- `Files` is marker storage: the marker paths
  `<directory>/php_shell_executor__<kind>__<id>`, the write-once unique
  identifier, and cleanup over a filesystem given as a set of paths.
- `ShellExecutor` is the supervisor.
  - `FindPid`, `Poll` and `ExecuteSpec` are pure functions. They state what
    the pid lookup, the liveness poll and one whole execution do.
  - The class `ShellExecutor.ShellExecutor` runs the same loops imperatively.
    Its methods are proved equal to those functions.
  - Lemmas about the functions state the bounds and the routing of outcomes.

The outside world enters as inputs:

- `Env.pidFile(k)` is what the k-th read of the process-id marker finds:
  `None` when the file is missing, `Some(v)` when its contents cast to the
  integer `v`.
- `Env.alive(k)` is the answer of the k-th `/proc/<pid>` check.
- `generated` is the value `uniqid()` would return. It is non-empty.
- `tempDir` is the value of `sys_get_temp_dir()`.
- `fs` is the set of files that exist when the process is done.
- `stdout` and `stderr` are what the pipes hold.

PHP's truthiness of the stored identifier is modelled by `Files.IsEmpty`:
`null` (written `""`) and `"0"` both count as empty.

The model follows what the code does. Where the library's own description of
its behaviour says otherwise, the code wins:

- Cleanup deletes the process-id marker and a file named by the bare
  identifier. It never deletes the success marker (`Files.CleanupKeepsSuccessMarker`).
- The constructor's `$timeout` argument is ignored. The timer keeps its
  default of 5 seconds.
- Only timeouts and "not created" go through cleanup and `proc_terminate`.
  The "executed with failure" exception is not a `ShellExecutorExceptionBase`,
  so it skips both.
- The pid lookup's counter goes up twice per round, so it reads at most 101
  times and sleeps at most 101 times, not 200.
  - The `=== $maxAttempts` throw can never fire. The branch is in the loop
    of `ShellExecutor.ShellExecutor.GetProcessId`, whose result equals
    `FindPid`, which has no such exit.
  - Every poll iteration runs the whole lookup again, and so does `kill`.
  - Total waiting is bounded by 101 ticks per iteration plus one lookup for
    the kill plus the poll's own sleeps (`ShellExecutor.PollSleepsBounded`).
    `$maxAttempts = 200` bounds one lookup, not the whole run.
- The default descriptor table names the stdout slot twice, so stdin and
  stderr are not wired (`ShellExecutor.DefaultDescriptorSpec`).

## Model

| member | source | states |
|---|---|---|
| Timer.MicroSeconds | src/Common/Timer.php:55-57 | seconds times 1000000: the result is a whole number of seconds in microseconds, and it converts back to the seconds given |
| Timer.LoopTime | src/Common/Timer.php:64-66 | when the interval divides one second, the budget times the interval is exactly the timeout in microseconds |
| Timer.LoopTimeMonotone | src/Common/Timer.php:65 | a longer timeout never gives a smaller budget |
| Timer.DefaultLoopTimePerSecond | src/Common/Timer.php:26 | with the default 100000 us interval the budget is ten iterations per second |
| Timer.Timer.constructor | src/Common/Timer.php:19-26 | a fresh timer has timeout 5, interval 100000 and no ticks, so its budget is 50 |
| Timer.Timer.GetTimeout | src/Common/Timer.php:33-35 | returns the current timeout |
| Timer.Timer.SetTimeout | src/Common/Timer.php:43-45 | sets the timeout and leaves the ticks alone; the interval is a constant field, so it cannot change |
| Timer.Timer.GetLoopTime | src/Common/Timer.php:64-66 | the budget is computed from the current timeout and interval on every call: budget times interval equals the timeout in microseconds |
| Timer.Timer.Sleep | src/Common/Timer.php:68-70 | one tick passes and nothing else changes |
| Timer.RetimedLoopTime | src/Common/Timer.php:33-45 | set then get returns the timeout set, and the next budget is the new timeout's budget at the same interval |
| Files.IdAfterGet | src/Common/Files.php:95-101 | the identifier after a read is never empty, and a non-empty stored identifier is kept |
| Files.FilePath | src/Common/Files.php:62-66 | a marker path starts with the directory and "/", ends with the identifier, and is as long as its parts plus the five separator characters |
| Files.CleanupSet | src/Common/Files.php:123-126 | cleanup only removes files, removes nothing but the process-id marker and the bare identifier, and neither is left |
| Files.FilePathLayout | src/Common/Files.php:62-66 | between the directory's "/" and the identifier, a marker path holds the prefix and "__", then the kind itself, then "__" |
| Files.FilePathInjective | src/Common/Files.php:62-66 | under one directory, equal paths with kinds of equal length have the same kind and the same identifier |
| Files.DistinctIdsDistinctPaths | src/Common/Files.php:62-66 | different identifiers give different marker paths of the same kind; with `Files.MarkersDisjoint`, executions with different identifiers do not share markers |
| Files.MarkersDisjoint | src/Common/Files.php:42-53 | a success marker is never a process-id marker, whatever the two identifiers, so no marker of one kind can stand for one of the other |
| Files.DirectoryIsOnlyPrefix | src/Common/Files.php:62-66 | changing the directory changes only the prefix of a marker path |
| Files.CleanupKeepsSuccessMarker | src/Common/Files.php:123-126 | after cleanup the process-id marker is gone, and the success marker is present exactly when it was before |
| Files.CleanupIdempotent | src/Common/Files.php:123-126 | a second cleanup removes nothing more than the first |
| Files.Files.constructor | src/Common/Files.php:33-35 | the directory is the system temp directory and no identifier is held |
| Files.Files.GetDirectory | src/Common/Files.php:75-77 | returns the directory |
| Files.Files.SetDirectory | src/Common/Files.php:82-84 | sets the directory and keeps the identifier |
| Files.Files.GetUniqueId | src/Common/Files.php:95-101 | generates an identifier only when the stored one is empty; the result is the stored identifier and is never empty |
| Files.Files.SetUniqueId | src/Common/Files.php:112-118 | stores the value when no identifier is held; otherwise raises "already exists" with the held identifier and changes nothing |
| Files.Files.GetFilePath | src/Common/Files.php:62-66 | the path of a kind under the current directory and the identifier, which is generated first if none is held |
| Files.Files.GetSuccess | src/Common/Files.php:42-44 | the success marker path of the current identifier |
| Files.Files.GetProcessId | src/Common/Files.php:51-53 | the process-id marker path of the current identifier |
| Files.Files.Cleanup | src/Common/Files.php:123-126 | removes exactly the process-id marker and the bare identifier from the file set and never fails |
| Files.UniqueIdIsStable | src/Common/Files.php:95-101 | two reads with no write between them return the same non-empty identifier |
| Files.IdIsWriteOnceAfterPathLookup | src/Common/Files.php:112-115 | once a path lookup has generated the identifier, a later set is rejected and the path keeps that identifier |
| Files.SetThenGet | src/Common/Files.php:112-118 | a set on an empty instance is stored, and a later read returns it unless it is empty |
| Files.DirectoryRoundTrip | src/Common/Files.php:75-84 | set then get of the directory returns the value set and keeps the identifier |
| ShellExecutor.DefaultDescriptorSpec | src/ShellExecutor.php:48-51 | the default table has the single key 1, a write pipe; stdin and stderr have no entry |
| ShellExecutor.FullCommand | src/ShellExecutor.php:99 | the wrapped line is "( ", then the command verbatim, then the tail that touches the success marker and writes `$!` into the process-id marker, in the background |
| ShellExecutor.CommandRoundTrip | src/ShellExecutor.php:92-100 | `CommandOf` gives the command back unchanged from its wrapped line |
| ShellExecutor.FullCommandInjective | src/ShellExecutor.php:92-100 | under the same markers, different commands give different command lines |
| ShellExecutor.FindPidFirstHit | src/ShellExecutor.php:188-213 | the lookup makes at most 101 reads and at most one sleep per read; a pid it returns is positive and is the first positive value read; with no pid, every read came up without one |
| ShellExecutor.FindPidSleepsOnlyWhenAbsent | src/ShellExecutor.php:194-210 | the lookup sleeps once for each read that found no file; a file with a non-positive value is read again without a sleep |
| ShellExecutor.FindPidNeverCreated | src/ShellExecutor.php:188-212 | a marker that never appears costs all the reads and one sleep each, then "not created" |
| ShellExecutor.PollBounds | src/ShellExecutor.php:122-134 | the poll makes at most one liveness check per iteration and sleeps fewer times than it iterates; its waiting is bounded by one full lookup per iteration, one more for the kill, and its own sleeps |
| ShellExecutor.PollKillsOnlyWhenAlwaysAlive | src/ShellExecutor.php:122-134 | the poll kills only after every iteration up to the budget found the process running, and the pid it kills is positive |
| ShellExecutor.PollAlwaysAliveKills | src/ShellExecutor.php:122-130 | a process whose pid is found on every read and that is running at every check is killed at the budget, with the pid of the kill's own lookup, one sleep per earlier iteration and no other wait |
| ShellExecutor.PollExitsWhenGone | src/ShellExecutor.php:123-133 | the converse: a process whose pid is found on every read and that is first found gone at a check within the budget makes the poll leave the loop there, after one sleep per earlier check and no other wait |
| ShellExecutor.PollExitsAtFirstGone | src/ShellExecutor.php:123-133 | the poll leaves the loop at the first check that finds the process gone |
| ShellExecutor.ExecuteSpec | src/ShellExecutor.php:118-158 | stdout only when the success marker exists, stderr only when it is missing, both with files untouched, no termination and no kill; timeout and "not created" clean up; a timeout terminates twice and force-kills its pid, "not created" terminates once and kills nothing |
| ShellExecutor.TimeoutOnlyAfterFullBudget | src/ShellExecutor.php:122-128 | a timeout comes only after all budget + 1 checks found the process running; it carries a positive pid and the full command line, and that pid is the one force-killed |
| ShellExecutor.AlwaysRunningTimesOut | src/ShellExecutor.php:122-157 | the converse: a process running at all budget + 1 checks, its pid found on each read, is timed out with that pid and the full command line, force-killed, terminated twice, its markers cleaned up, after exactly budget ticks |
| ShellExecutor.NotRunningPreventsKill | src/ShellExecutor.php:123-133 | one check within the budget that finds the process gone rules out a timeout and a kill |
| ShellExecutor.PollSleepsBounded | src/ShellExecutor.php:123-130 | the poll sleeps at most budget times, because the kill comes before the sleep; all ticks are bounded by 101 per iteration plus one lookup for the kill plus those sleeps |
| ShellExecutor.NeverCreatedRun | src/ShellExecutor.php:118-158 | a process-id marker that never appears ends the run as "not created" after 101 ticks, with cleanup, one termination and no forced kill |
| ShellExecutor.FinishedWithinBudget | src/ShellExecutor.php:123-146 | a command whose pid is found and that is first found gone at check `a` within the budget ends with stdout, or stderr when the success marker is missing, with files untouched, no termination, no kill, and exactly `a` ticks, all of them poll sleeps |
| ShellExecutor.ShellExecutor.constructor | src/ShellExecutor.php:76-80 | keeps the command, makes a fresh timer (timeout 5 whatever argument was given, interval 100000 us, so a budget of 50) and fresh marker storage, and has the default descriptor table |
| ShellExecutor.ShellExecutor.GetTimer | src/ShellExecutor.php:82-84 | returns the executor's own timer |
| ShellExecutor.ShellExecutor.GetFullCommand | src/ShellExecutor.php:92-100 | the wrapped line of the command and the two marker paths of the current identifier |
| ShellExecutor.ShellExecutor.GetDescriptorSpec | src/ShellExecutor.php:108-111 | returns the current descriptor table |
| ShellExecutor.ShellExecutor.SetDescriptorSpec | src/ShellExecutor.php:256-258 | replaces the descriptor table |
| ShellExecutor.ShellExecutor.RunProcess | src/ShellExecutor.php:167-177 | launches the wrapped line; the handle held is that line's process |
| ShellExecutor.ShellExecutor.GetProcessId | src/ShellExecutor.php:188-213 | the retry loop, including its `=== $maxAttempts` throw, returns the pid and the next read that `FindPid` gives and waits exactly the ticks it gives; `FindPid` has no exit at attempt 200, so that throw is never taken |
| ShellExecutor.ShellExecutor.IsRunning | src/ShellExecutor.php:221-229 | looks the pid up and then checks liveness once; a failed lookup raises "not created" without a check; the running flag stays set only if the lookup never slept |
| ShellExecutor.ShellExecutor.Kill | src/ShellExecutor.php:240-248 | looks the pid up again, terminates the handle and force-kills that pid when a handle is held, and always raises a timeout with the pid and the full command line; a failed lookup raises "not created" instead and touches nothing; the running flag stays set only if the lookup never slept |
| ShellExecutor.ShellExecutor.Supervise | src/ShellExecutor.php:122-134 | the polling loop ends as `Poll` does for the budget at its start: nothing pending when the process is gone, "not created" when a lookup fails, otherwise a timeout with the killed pid and the full command line; its ticks are `Poll`'s, a kill adds one termination and that pid's forced kill, and the running flag is never set again |
| ShellExecutor.ShellExecutor.Conclude | src/ShellExecutor.php:136-157 | with nothing pending, the success marker's existence decides between `Ok(stdout)` and `Failed(stderr)` and nothing is cleaned up or terminated; a pending exception cleans the markers up, terminates a held handle once and is raised again |
| ShellExecutor.ShellExecutor.Execute | src/ShellExecutor.php:118-158 | the outcome, files left, terminations, forced kills and ticks are those of `ExecuteSpec` for the budget at the start of the run; the descriptor table is unchanged and the running flag, once cleared, is never set again |

## Left out

- Process launch and streams: `proc_open`, the pipes and `stream_get_contents` are not modelled. The launch records its command line in a handle, and `stdout`/`stderr` are opaque inputs.
- The `/proc/<pid>` check, `proc_terminate` and `kill -9` are not performed. Liveness is the input `Env.alive`, and the two signals are recorded in the `terminations` and `forcedKills` fields.
- `usleep` is one tick of `Timer.Timer.ticks`; real time is not modelled.
- `uniqid()` is the parameter `generated`, a non-empty string. Collision resistance is not modelled.
- `sys_get_temp_dir()` is the constructor parameter `tempDir`.
- Reading and casting the process-id file: `(int) file_get_contents` is folded into the input `Env.pidFile`, which yields the integer directly.
- Timer.LoopTime: PHP's `/` yields a float when the division is inexact. The model requires the interval to be positive and to divide one second, which the constant interval of 100000 does, so the division is exact.
- The interval cannot be changed: `$sleepTime` has no setter, so the model makes it a constant field, and subclasses overriding it are not modelled.
- The success check: `$this->files["success"]` indexes a `Files` object that is not array-accessible, which is a runtime error in PHP. The model reads this as "the success marker exists in `fs`".
- `$this->pipes[2]` does not exist with the default descriptor table. The model treats `stderr` as an input anyway.
- `fs` is one snapshot of the filesystem taken when the process is done. Files that appear or vanish during the poll are covered by `Env.pidFile`, not by `fs`.
- ShellExecutor.ShellExecutor.constructor: the unused timeout parameter comes last, so that it can keep its default of `DefaultExecuteTimeout` after the temp-directory parameter, which has none.
- Files.Files.SetUniqueId: the argument is a string, so non-string values PHP would accept are not modelled.
- ShellExecutor.ShellExecutor.GetProcessId: `$processIsRunning := FALSE` happens once after the loop when a read missed the file, not at each missed read. The field is never read, so no caller can tell the difference.
- The exception classes are the constructors of `Outcome` and `Files.SetIdOutcome`; their message texts are not modelled.
- The `$pid == NULL` branch of `isRunning` is not modelled: the lookup only yields positive pids (`ShellExecutor.FindPidFirstHit`).
