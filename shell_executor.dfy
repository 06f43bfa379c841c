/**
 * The execution supervisor: it wraps a command so that the shell records
 * the background process id and a success marker, finds the process id with
 * a bounded retry loop, polls liveness up to the timer's budget, kills the
 * process when the budget runs out, and routes the outcome.
 *
 * The world outside is given as observations: `Env.pidFile(k)` is what the
 * k-th read of the process-id marker finds (`None`: the file does not
 * exist; `Some(v)`: it exists and its contents cast to the integer `v`),
 * and `Env.alive(k)` is whether the k-th liveness check finds `/proc/<pid>`.
 * Waiting is the timer's tick counter; the filesystem is a set of paths.
 */
module ShellExecutor {

  import opened Wrappers
  import Files
  import Timer

  const PipeStdin: int := 0
  const PipeStdout: int := 1
  const PipeStderr: int := 2

  const DefaultExecuteTimeout: int := 5

  /** The retry loop's `$maxAttempts`. */
  const MaxAttempts: int := 200
  /**
   * The retry loop counts twice per round (attempts 1, 3, ..., 201), so it
   * reads the process-id marker at most this often.
   */
  const MaxChecks: nat := 101

  /** One entry of the descriptor table handed to `proc_open`. */
  datatype Descriptor = Pipe(mode: string)

  /** What `proc_open` returned, standing for the launched process. */
  datatype ProcessHandle = ProcessHandle(commandLine: string)

  /** The one result of `execute`: the value returned or the exception raised. */
  datatype Outcome =
    | Ok(stdout: string)
    | Timeout(pid: int, command: string)
    | NotCreated
    | Failed(stderr: string)

  datatype Env = Env(pidFile: nat -> Option<int>, alive: nat -> bool)

  /**
   * The default descriptor table. Its literal names the stdout slot twice, so
   * only that one entry exists: stdin and stderr are not wired.
   */
  function DefaultDescriptorSpec(): (spec: map<int, Descriptor>)
    ensures spec.Keys == {PipeStdout} && spec[PipeStdout] == Pipe("w")
    ensures PipeStdin !in spec && PipeStderr !in spec
  {
    map[PipeStdout := Pipe("w")][PipeStdout := Pipe("w")]
  }

  // ---------------------------------------------------------------------------
  // The wrapped command line

  /**
   * Runs `command` in a background subshell that touches the success marker
   * when the command succeeds, writes the subshell's pid into the process-id
   * marker, and backgrounds the whole line.
   */
  function FullCommand(command: string, successPath: string, processIdPath: string): (line: string)
    ensures |line| == 2 + |command| + |LaunchTail(successPath, processIdPath)|
    ensures line[..2] == "( " && line[2..2 + |command|] == command
    ensures line[2 + |command|..] == LaunchTail(successPath, processIdPath)
  {
    "( " + command + " && touch " + successPath + ") & echo $! > " + processIdPath + " &"
  }

  /** Everything the wrapping adds after the command. */
  function LaunchTail(successPath: string, processIdPath: string): string
  {
    " && touch " + successPath + ") & echo $! > " + processIdPath + " &"
  }

  /** Recovers the command from a wrapped line, given the two marker paths. */
  function CommandOf(line: string, successPath: string, processIdPath: string): string
    requires |line| >= 2 + |LaunchTail(successPath, processIdPath)|
  {
    line[2..|line| - |LaunchTail(successPath, processIdPath)|]
  }

  /** The command comes back unchanged from its wrapped line. */
  lemma CommandRoundTrip(command: string, successPath: string, processIdPath: string)
    ensures CommandOf(FullCommand(command, successPath, processIdPath), successPath, processIdPath) == command
  {
    var tail := LaunchTail(successPath, processIdPath);
    var line := FullCommand(command, successPath, processIdPath);
    assert line == "( " + command + tail;
    assert line[2..|line| - |tail|] == command;
  }

  /** Distinct commands under the same markers give distinct command lines. */
  lemma FullCommandInjective(c1: string, c2: string, successPath: string, processIdPath: string)
    requires FullCommand(c1, successPath, processIdPath) == FullCommand(c2, successPath, processIdPath)
    ensures c1 == c2
  {
    CommandRoundTrip(c1, successPath, processIdPath);
    CommandRoundTrip(c2, successPath, processIdPath);
  }

  // ---------------------------------------------------------------------------
  // Finding the process id

  /** A read of the process-id marker that yields a usable pid. */
  predicate HoldsPid(read: Option<int>)
  {
    read.Some? && read.value > 0
  }

  /** Result of one process-id lookup: the pid if any, the next read index, the sleeps taken. */
  datatype PidSearch = PidSearch(pid: Option<int>, next: nat, sleeps: nat)

  /**
   * The lookup over at most `budget` reads starting at read `from`: the first
   * read that holds a positive pid wins; a missing file costs one sleep; a
   * file whose contents are not positive is read again at once.
   */
  function FindPid(pidFile: nat -> Option<int>, from: nat, budget: nat): PidSearch
    decreases budget
  {
    if budget == 0 then PidSearch(None, from, 0)
    else
      match pidFile(from)
      case Some(v) =>
        if v > 0 then PidSearch(Some(v), from + 1, 0)
        else FindPid(pidFile, from + 1, budget - 1)
      case None =>
        var rest := FindPid(pidFile, from + 1, budget - 1);
        rest.(sleeps := rest.sleeps + 1)
  }

  /**
   * The lookup reads at most `budget` times and sleeps at most once per read.
   * The pid it returns is positive and is the first positive one read; when
   * it returns none, every one of the `budget` reads came up without one.
   */
  lemma {:induction false} FindPidFirstHit(pidFile: nat -> Option<int>, from: nat, budget: nat)
    ensures var r := FindPid(pidFile, from, budget);
      && from <= r.next <= from + budget
      && r.sleeps <= r.next - from
      && (r.pid.Some? ==> r.pid.value > 0 && from < r.next && pidFile(r.next - 1) == r.pid)
      && (r.pid.None? ==> r.next == from + budget)
      && forall k :: from <= k < r.next && (r.pid.None? || k < r.next - 1) ==> !HoldsPid(pidFile(k))
    decreases budget
  {
    if budget > 0 && !HoldsPid(pidFile(from)) {
      FindPidFirstHit(pidFile, from + 1, budget - 1);
    }
  }

  /** How many reads in [lo, hi) find no process-id file. */
  function CountAbsent(pidFile: nat -> Option<int>, lo: nat, hi: nat): (n: nat)
    requires lo <= hi
    ensures n <= hi - lo
    decreases hi - lo
  {
    if lo == hi then 0
    else (if pidFile(lo).None? then 1 else 0) + CountAbsent(pidFile, lo + 1, hi)
  }

  /** The lookup sleeps exactly once per read that found no file, and for nothing else. */
  lemma {:induction false} FindPidSleepsOnlyWhenAbsent(pidFile: nat -> Option<int>, from: nat, budget: nat)
    ensures var r := FindPid(pidFile, from, budget);
      from <= r.next && r.sleeps == CountAbsent(pidFile, from, r.next)
    decreases budget
  {
    var r := FindPid(pidFile, from, budget);
    FindPidFirstHit(pidFile, from, budget);
    if budget > 0 {
      match pidFile(from)
      case Some(v) =>
        if v <= 0 {
          FindPidSleepsOnlyWhenAbsent(pidFile, from + 1, budget - 1);
        } else {
          assert CountAbsent(pidFile, from + 1, r.next) == 0;
        }
      case None =>
        FindPidSleepsOnlyWhenAbsent(pidFile, from + 1, budget - 1);
    }
  }

  /** A marker that never appears costs every read of the budget and one sleep each. */
  lemma {:induction false} FindPidNeverCreated(pidFile: nat -> Option<int>, from: nat, budget: nat)
    requires forall k :: from <= k < from + budget ==> pidFile(k).None?
    ensures FindPid(pidFile, from, budget) == PidSearch(None, from + budget, budget)
    decreases budget
  {
    if budget > 0 {
      FindPidNeverCreated(pidFile, from + 1, budget - 1);
    }
  }

  // ---------------------------------------------------------------------------
  // The liveness poll

  /** How a poll ends: the loop was left, kill raised its timeout, or a lookup failed. */
  datatype PollEnd = Exited | Killed(pid: int) | Lost

  /**
   * A poll's end, the next process-id read and liveness check, the sleeps of
   * the loop itself, and all ticks including those of the lookups.
   */
  datatype PollRun = PollRun(end: PollEnd, pidReads: nat, aliveReads: nat, pollSleeps: nat, ticks: nat)

  /** Iterations `i..loopTime` of the poll loop. */
  function Span(i: int, loopTime: int): nat
  {
    if i <= loopTime then loopTime - i + 1 else 0
  }

  /**
   * The poll loop from iteration `i`, next process-id read `pc` and next
   * liveness check `ac`: each iteration looks the pid up, then checks
   * liveness; not running leaves the loop, running at `loopTime` kills, and
   * running before it sleeps one tick.
   */
  function Poll(env: Env, i: int, loopTime: int, pc: nat, ac: nat): PollRun
    decreases loopTime - i
  {
    if i > loopTime then PollRun(Exited, pc, ac, 0, 0)
    else
      var probe := FindPid(env.pidFile, pc, MaxChecks);
      if probe.pid.None? then PollRun(Lost, probe.next, ac, 0, probe.sleeps)
      else if !env.alive(ac) then PollRun(Exited, probe.next, ac + 1, 0, probe.sleeps)
      else if i == loopTime then
        var again := FindPid(env.pidFile, probe.next, MaxChecks);
        PollRun(if again.pid.Some? then Killed(again.pid.value) else Lost,
                again.next, ac + 1, 0, probe.sleeps + again.sleeps)
      else
        var rest := Poll(env, i + 1, loopTime, probe.next, ac + 1);
        rest.(pollSleeps := rest.pollSleeps + 1, ticks := rest.ticks + probe.sleeps + 1)
  }

  /**
   * The poll consumes at most one liveness check per iteration and sleeps at
   * most once less than it iterates; its waiting is bounded by a full lookup
   * per iteration, one more for the kill, and its own sleeps.
   */
  lemma {:induction false} PollBounds(env: Env, i: int, loopTime: int, pc: nat, ac: nat)
    ensures var r := Poll(env, i, loopTime, pc, ac);
      && ac <= r.aliveReads <= ac + Span(i, loopTime)
      && (r.pollSleeps + 1 <= Span(i, loopTime) || r.pollSleeps == 0)
      && r.ticks <= MaxChecks * (Span(i, loopTime) + 1) + r.pollSleeps
    decreases loopTime - i
  {
    if i <= loopTime {
      var probe := FindPid(env.pidFile, pc, MaxChecks);
      FindPidFirstHit(env.pidFile, pc, MaxChecks);
      if probe.pid.Some? && env.alive(ac) {
        if i == loopTime {
          FindPidFirstHit(env.pidFile, probe.next, MaxChecks);
        } else {
          PollBounds(env, i + 1, loopTime, probe.next, ac + 1);
        }
      }
    }
  }

  /**
   * The poll kills only after every iteration from `i` to `loopTime` found
   * the process running, and the pid it kills is positive.
   */
  lemma {:induction false} PollKillsOnlyWhenAlwaysAlive(env: Env, i: int, loopTime: int, pc: nat, ac: nat)
    ensures var r := Poll(env, i, loopTime, pc, ac);
      r.end.Killed? ==>
        && r.end.pid > 0
        && r.aliveReads == ac + Span(i, loopTime)
        && forall a :: ac <= a < r.aliveReads ==> env.alive(a)
    decreases loopTime - i
  {
    if i <= loopTime {
      var probe := FindPid(env.pidFile, pc, MaxChecks);
      if probe.pid.Some? && env.alive(ac) {
        if i == loopTime {
          FindPidFirstHit(env.pidFile, probe.next, MaxChecks);
        } else {
          PollKillsOnlyWhenAlwaysAlive(env, i + 1, loopTime, probe.next, ac + 1);
        }
      }
    }
  }

  /**
   * A process whose pid is at hand on every read and that is running at
   * every check is killed at `loopTime`: one read per iteration, a last read
   * for the kill, and one sleep per iteration before it, with no other wait.
   */
  lemma {:induction false} PollAlwaysAliveKills(env: Env, i: int, loopTime: int, pc: nat, ac: nat)
    requires i <= loopTime
    requires forall k :: pc <= k <= pc + (loopTime - i) + 1 ==> HoldsPid(env.pidFile(k))
    requires forall a :: ac <= a <= ac + (loopTime - i) ==> env.alive(a)
    ensures HoldsPid(env.pidFile(pc + (loopTime - i) + 1))
    ensures var n := loopTime - i;
      Poll(env, i, loopTime, pc, ac) == PollRun(Killed(env.pidFile(pc + n + 1).value), pc + n + 2, ac + n + 1, n, n)
    decreases loopTime - i
  {
    assert HoldsPid(env.pidFile(pc)) && HoldsPid(env.pidFile(pc + 1));
    if i < loopTime {
      PollAlwaysAliveKills(env, i + 1, loopTime, pc + 1, ac + 1);
    }
  }

  /**
   * The converse: a process whose pid is found on every read and that is
   * first found gone at check `a` within the budget makes the poll leave the
   * loop there, after one sleep per earlier check and no other wait.
   */
  lemma {:induction false} PollExitsWhenGone(env: Env, i: int, loopTime: int, pc: nat, ac: nat, a: nat)
    requires i <= loopTime && ac <= a && a - ac <= loopTime - i
    requires forall k :: pc <= k <= pc + (a - ac) ==> HoldsPid(env.pidFile(k))
    requires forall b :: ac <= b < a ==> env.alive(b)
    requires !env.alive(a)
    ensures var n := a - ac;
      Poll(env, i, loopTime, pc, ac) == PollRun(Exited, pc + n + 1, a + 1, n, n)
    decreases loopTime - i
  {
    assert HoldsPid(env.pidFile(pc));
    if ac < a {
      PollExitsWhenGone(env, i + 1, loopTime, pc + 1, ac + 1, a);
    }
  }

  /** The poll leaves the loop at the first liveness check that finds the process gone. */
  lemma {:induction false} PollExitsAtFirstGone(env: Env, i: int, loopTime: int, pc: nat, ac: nat)
    ensures var r := Poll(env, i, loopTime, pc, ac);
      r.end.Exited? && i <= loopTime ==>
        && ac < r.aliveReads
        && !env.alive(r.aliveReads - 1)
        && forall a :: ac <= a < r.aliveReads - 1 ==> env.alive(a)
    decreases loopTime - i
  {
    if i < loopTime {
      var probe := FindPid(env.pidFile, pc, MaxChecks);
      if probe.pid.Some? && env.alive(ac) {
        PollExitsAtFirstGone(env, i + 1, loopTime, probe.next, ac + 1);
      }
    }
  }

  // ---------------------------------------------------------------------------
  // One execution

  /**
   * The effect of one `execute`: the outcome, the files left, how often the
   * process handle was terminated, the pids sent `kill -9`, the ticks waited
   * and the sleeps of the poll loop alone.
   */
  datatype Run = Run(outcome: Outcome, files: set<string>, terminations: nat, forcedKills: seq<int>,
                     ticks: nat, pollSleeps: nat)

  /**
   * `execute` for command `command`, markers under `directory` and `id`, the
   * poll budget `loopTime`, the observations `env`, the filesystem `fs` when
   * the process is done with, and what the pipes hold.
   */
  /** The exception the polling loop leaves pending when it ends in `end`. */
  function Raised(end: PollEnd, line: string): (thrown: Option<Outcome>)
    ensures thrown.None? <==> end.Exited?
    ensures thrown == Some(NotCreated) <==> end.Lost?
  {
    match end
    case Exited => None
    case Killed(pid) => Some(Timeout(pid, line))
    case Lost => Some(NotCreated)
  }

  function ExecuteSpec(command: string, directory: string, id: string, loopTime: int, env: Env,
                       fs: set<string>, stdout: string, stderr: string): (r: Run)
    ensures r.outcome.Ok? || r.outcome.Failed? ==>
      r.files == fs && r.terminations == 0 && r.forcedKills == []
    ensures r.outcome.Timeout? || r.outcome.NotCreated? ==> r.files == Files.CleanupSet(fs, directory, id)
    ensures r.outcome.Timeout? ==> r.terminations == 2 && r.forcedKills == [r.outcome.pid]
    ensures r.outcome.NotCreated? ==> r.terminations == 1 && r.forcedKills == []
    ensures r.outcome.Ok? ==> Files.SuccessPath(directory, id) in fs && r.outcome.stdout == stdout
    ensures r.outcome.Failed? ==> Files.SuccessPath(directory, id) !in fs && r.outcome.stderr == stderr
  {
    var p := Poll(env, 0, loopTime, 0, 0);
    match p.end
    case Exited =>
      var outcome := if Files.SuccessPath(directory, id) in fs then Ok(stdout) else Failed(stderr);
      Run(outcome, fs, 0, [], p.ticks, p.pollSleeps)
    case Killed(pid) =>
      var line := FullCommand(command, Files.SuccessPath(directory, id), Files.ProcessIdPath(directory, id));
      Run(Timeout(pid, line), Files.CleanupSet(fs, directory, id), 2, [pid], p.ticks, p.pollSleeps)
    case Lost =>
      Run(NotCreated, Files.CleanupSet(fs, directory, id), 1, [], p.ticks, p.pollSleeps)
  }

  /**
   * A timeout is raised only after all `loopTime + 1` liveness checks found
   * the process running; it carries a positive pid and the full command
   * line, and that pid is the one force-killed.
   */
  lemma TimeoutOnlyAfterFullBudget(command: string, directory: string, id: string, loopTime: int, env: Env,
                                   fs: set<string>, stdout: string, stderr: string)
    ensures var r := ExecuteSpec(command, directory, id, loopTime, env, fs, stdout, stderr);
      r.outcome.Timeout? ==>
        && 0 <= loopTime
        && (forall a :: 0 <= a <= loopTime ==> env.alive(a))
        && r.outcome.pid > 0
        && r.forcedKills == [r.outcome.pid]
        && r.outcome.command == FullCommand(command, Files.SuccessPath(directory, id), Files.ProcessIdPath(directory, id))
  {
    PollKillsOnlyWhenAlwaysAlive(env, 0, loopTime, 0, 0);
  }

  /**
   * The converse: a process running at all `loopTime + 1` checks, whose pid
   * is found on each read, is timed out. The timeout carries the pid of the
   * kill's own lookup and the full command line, that pid is force-killed,
   * the markers are cleaned up, and the poll slept once per iteration before
   * the last.
   */
  lemma AlwaysRunningTimesOut(command: string, directory: string, id: string, loopTime: int, env: Env,
                              fs: set<string>, stdout: string, stderr: string)
    requires 0 <= loopTime
    requires forall k :: 0 <= k <= loopTime + 1 ==> HoldsPid(env.pidFile(k))
    requires forall a :: 0 <= a <= loopTime ==> env.alive(a)
    ensures HoldsPid(env.pidFile(loopTime + 1))
    ensures var r := ExecuteSpec(command, directory, id, loopTime, env, fs, stdout, stderr);
      var pid := env.pidFile(loopTime + 1).value;
      && r.outcome == Timeout(pid, FullCommand(command, Files.SuccessPath(directory, id), Files.ProcessIdPath(directory, id)))
      && r.forcedKills == [pid] && r.terminations == 2
      && r.files == Files.CleanupSet(fs, directory, id)
      && r.pollSleeps == loopTime && r.ticks == loopTime
  {
    PollAlwaysAliveKills(env, 0, loopTime, 0, 0);
  }

  /** One liveness check that finds the process gone within the budget rules out the kill. */
  lemma NotRunningPreventsKill(command: string, directory: string, id: string, loopTime: int, env: Env,
                               fs: set<string>, stdout: string, stderr: string, a: int)
    requires 0 <= a <= loopTime && !env.alive(a)
    ensures var r := ExecuteSpec(command, directory, id, loopTime, env, fs, stdout, stderr);
      !r.outcome.Timeout? && r.forcedKills == []
  {
    TimeoutOnlyAfterFullBudget(command, directory, id, loopTime, env, fs, stdout, stderr);
  }

  /**
   * The poll loop sleeps at most `loopTime` times: at the last iteration the
   * kill comes before the sleep. All waiting together is bounded by a full
   * lookup per iteration, one for the kill, and the poll sleeps.
   */
  lemma PollSleepsBounded(command: string, directory: string, id: string, loopTime: int, env: Env,
                          fs: set<string>, stdout: string, stderr: string)
    ensures var r := ExecuteSpec(command, directory, id, loopTime, env, fs, stdout, stderr);
      && r.pollSleeps <= (if loopTime >= 0 then loopTime else 0)
      && r.ticks <= MaxChecks * (if loopTime >= 0 then loopTime + 2 else 1) + r.pollSleeps
  {
    PollBounds(env, 0, loopTime, 0, 0);
  }

  /**
   * A process-id marker that never appears ends the run as "not created"
   * after the first lookup's 101 reads and 101 sleeps, with cleanup.
   */
  lemma NeverCreatedRun(command: string, directory: string, id: string, loopTime: int, env: Env,
                        fs: set<string>, stdout: string, stderr: string)
    requires 0 <= loopTime
    requires forall k :: 0 <= k < MaxChecks ==> env.pidFile(k).None?
    ensures var r := ExecuteSpec(command, directory, id, loopTime, env, fs, stdout, stderr);
      && r.outcome == NotCreated
      && r.ticks == MaxChecks
      && r.files == Files.CleanupSet(fs, directory, id)
      && r.terminations == 1 && r.forcedKills == []
  {
    FindPidNeverCreated(env.pidFile, 0, MaxChecks);
  }

  /**
   * A command whose pid is found on every read and that is first found gone
   * at check `a` within the budget ends there, untouched: its stdout, or its
   * stderr when the success marker is missing, after one sleep per earlier
   * check and no other wait.
   */
  lemma FinishedWithinBudget(command: string, directory: string, id: string, loopTime: int, env: Env,
                             fs: set<string>, stdout: string, stderr: string, a: nat)
    requires a <= loopTime
    requires forall k :: 0 <= k <= a ==> HoldsPid(env.pidFile(k))
    requires forall b :: 0 <= b < a ==> env.alive(b)
    requires !env.alive(a)
    ensures var r := ExecuteSpec(command, directory, id, loopTime, env, fs, stdout, stderr);
      && r.outcome == (if Files.SuccessPath(directory, id) in fs then Ok(stdout) else Failed(stderr))
      && r.files == fs && r.terminations == 0 && r.forcedKills == []
      && r.ticks == a && r.pollSleeps == a
  {
    PollExitsWhenGone(env, 0, loopTime, 0, 0, a);
  }

  // ---------------------------------------------------------------------------
  // The supervisor object

  class ShellExecutor {
    const command: string
    const timer: Timer.Timer
    const files: Files.Files
    var descriptorSpec: map<int, Descriptor>
    var resource: Option<ProcessHandle>
    /** Never set to true anywhere and never read; only the lookup writes it, to false. */
    var processIsRunning: bool
    /** How often `proc_terminate` was called on `resource`. */
    var terminations: nat
    /** The pids sent `kill -9`, in order. */
    var forcedKills: seq<int>

    ghost predicate Valid()
    {
      timer.Valid()
    }

    /**
     * `tempDir` is the system temporary directory. The timeout argument is
     * accepted and ignored: the timer keeps its default of 5 seconds.
     */
    constructor (command: string, tempDir: string, timeout: int := DefaultExecuteTimeout)
      ensures Valid() && fresh(timer) && fresh(files)
      ensures this.command == command
      ensures timer.timeout == Timer.DefaultTimeout && timer.sleepTime == Timer.DefaultSleepTime && timer.ticks == 0
      ensures timer.GetLoopTime() == 50
      ensures files.directory == tempDir && files.uniqueId == ""
      ensures descriptorSpec == DefaultDescriptorSpec()
      ensures resource == None && !processIsRunning && terminations == 0 && forcedKills == []
    {
      this.command := command;
      timer := new Timer.Timer();
      files := new Files.Files(tempDir);
      descriptorSpec := DefaultDescriptorSpec();
      resource := None;
      processIsRunning := false;
      terminations := 0;
      forcedKills := [];
    }

    method GetTimer() returns (t: Timer.Timer)
      ensures t == timer
    {
      t := timer;
    }

    method GetFullCommand(generated: string) returns (line: string)
      requires !Files.IsEmpty(generated)
      modifies files
      ensures files.uniqueId == Files.IdAfterGet(old(files.uniqueId), generated)
      ensures files.directory == old(files.directory)
      ensures line == FullCommand(command, Files.SuccessPath(files.directory, files.uniqueId),
                                  Files.ProcessIdPath(files.directory, files.uniqueId))
    {
      var successFile := files.GetSuccess(generated);
      var processIdFile := files.GetProcessId(generated);
      line := "( " + command + " && touch " + successFile + ") & echo $! > " + processIdFile + " &";
    }

    method GetDescriptorSpec() returns (spec: map<int, Descriptor>)
      ensures spec == descriptorSpec
    {
      spec := descriptorSpec;
    }

    method SetDescriptorSpec(spec: map<int, Descriptor>)
      modifies this`descriptorSpec
      ensures descriptorSpec == spec
    {
      descriptorSpec := spec;
    }

    /** Launches the wrapped command line; the handle stands for the process. */
    method RunProcess(generated: string)
      requires !Files.IsEmpty(generated)
      modifies this`resource, files
      ensures files.uniqueId == Files.IdAfterGet(old(files.uniqueId), generated)
      ensures files.directory == old(files.directory)
      ensures resource == Some(ProcessHandle(FullCommand(command, Files.SuccessPath(files.directory, files.uniqueId),
                                                         Files.ProcessIdPath(files.directory, files.uniqueId))))
    {
      var line := GetFullCommand(generated);
      resource := Some(ProcessHandle(line));
    }

    /**
     * The retry loop for the pid, starting at read `from`. `None` is
     * `ProcessWasNotCreatedException`.
     */
    method GetProcessId(pidFile: nat -> Option<int>, from: nat) returns (pid: Option<int>, next: nat)
      requires Valid()
      modifies this`processIsRunning, timer`ticks
      ensures var s := FindPid(pidFile, from, MaxChecks);
        && pid == s.pid && next == s.next
        && timer.ticks == old(timer.ticks) + s.sleeps
        && processIsRunning == (old(processIsRunning) && s.sleeps == 0)
    {
      var currentAttempt := 0;
      next := from;
      ghost var round: nat := 0;
      ghost var slept: nat := 0;
      pid := None;
      var missed := false;
      while currentAttempt <= MaxAttempts
        invariant currentAttempt == 2 * round && round <= MaxChecks
        invariant next == from + round
        invariant var rest := FindPid(pidFile, next, MaxChecks - round);
          FindPid(pidFile, from, MaxChecks) == rest.(sleeps := rest.sleeps + slept)
        invariant timer.ticks == old(timer.ticks) + slept
        invariant missed == (slept > 0) && processIsRunning == old(processIsRunning)
        decreases MaxAttempts + 2 - currentAttempt
      {
        ghost var here := FindPid(pidFile, next, MaxChecks - round);
        currentAttempt := currentAttempt + 1;
        var observed := pidFile(next);
        next := next + 1;
        if observed.Some? {
          if observed.value > 0 {
            assert here == PidSearch(Some(observed.value), next, 0);
            pid := Some(observed.value);
            break;
          }
          assert here == FindPid(pidFile, next, MaxChecks - round - 1);
        } else {
          ghost var after := FindPid(pidFile, next, MaxChecks - round - 1);
          assert here == after.(sleeps := after.sleeps + 1);
          if currentAttempt == MaxAttempts {
            // `ProcessWasNotCreatedException` at the 200th attempt: never
            // raised, because the counter is odd here.
            pid := None;
            break;
          }
          timer.Sleep();
          missed := true;
          slept := slept + 1;
        }
        currentAttempt := currentAttempt + 1;
        round := round + 1;
      }
      if missed {
        processIsRunning := false;
      }
    }

    /**
     * Looks the pid up, then checks that `/proc/<pid>` exists. `None` is the
     * lookup's exception; the lookup never yields a pid equal to `null`.
     */
    method IsRunning(env: Env, pc: nat, ac: nat) returns (running: Option<bool>, pc': nat, ac': nat)
      requires Valid()
      modifies this`processIsRunning, timer
      ensures Valid() && timer.timeout == old(timer.timeout)
      ensures var s := FindPid(env.pidFile, pc, MaxChecks);
        && pc' == s.next && timer.ticks == old(timer.ticks) + s.sleeps
        && (s.pid.None? ==> running == None && ac' == ac)
        && (s.pid.Some? ==> running == Some(env.alive(ac)) && ac' == ac + 1)
        && processIsRunning == (old(processIsRunning) && s.sleeps == 0)
    {
      var pid;
      pid, pc' := GetProcessId(env.pidFile, pc);
      if pid.None? {
        return None, pc', ac;
      }
      running, ac' := Some(env.alive(ac)), ac + 1;
    }

    /**
     * Looks the pid up again, terminates the handle and force-kills the pid,
     * then raises the timeout with the pid and the full command line. A
     * failed lookup raises its own exception first.
     */
    method Kill(env: Env, pc: nat, generated: string) returns (thrown: Outcome, pc': nat)
      requires Valid() && !Files.IsEmpty(generated)
      modifies this`processIsRunning, this`terminations, this`forcedKills, timer, files
      ensures Valid() && timer.timeout == old(timer.timeout)
      ensures var s := FindPid(env.pidFile, pc, MaxChecks);
        && pc' == s.next && timer.ticks == old(timer.ticks) + s.sleeps
        && processIsRunning == (old(processIsRunning) && s.sleeps == 0)
        && (s.pid.None? ==>
              && thrown == NotCreated
              && files.uniqueId == old(files.uniqueId) && files.directory == old(files.directory)
              && terminations == old(terminations) && forcedKills == old(forcedKills))
        && (s.pid.Some? ==>
              && files.uniqueId == Files.IdAfterGet(old(files.uniqueId), generated)
              && files.directory == old(files.directory)
              && thrown == Timeout(s.pid.value, FullCommand(command, Files.SuccessPath(files.directory, files.uniqueId),
                                                             Files.ProcessIdPath(files.directory, files.uniqueId)))
              && terminations == old(terminations) + (if resource.Some? then 1 else 0)
              && forcedKills == old(forcedKills) + (if resource.Some? then [s.pid.value] else []))
    {
      var processId;
      processId, pc' := GetProcessId(env.pidFile, pc);
      if processId.None? {
        return NotCreated, pc';
      }
      if resource.Some? {
        terminations := terminations + 1;
        forcedKills := forcedKills + [processId.value];
      }
      var line := GetFullCommand(generated);
      thrown := Timeout(processId.value, line);
    }

    /**
     * The end of `execute`. With no exception pending, the pipes are drained
     * into `stdout` and `stderr` and the success marker's existence decides
     * between result and failure. The supervisor's own exceptions delete the
     * markers, terminate the handle if one is held, and are raised again.
     */
    method Conclude(thrown: Option<Outcome>, fs: set<string>, stdout: string, stderr: string, generated: string)
      returns (outcome: Outcome, fs': set<string>)
      requires !Files.IsEmpty(generated)
      modifies this`terminations, files
      ensures files.uniqueId == Files.IdAfterGet(old(files.uniqueId), generated)
      ensures files.directory == old(files.directory)
      ensures thrown.None? ==>
        && outcome == (if Files.SuccessPath(files.directory, files.uniqueId) in fs then Ok(stdout) else Failed(stderr))
        && fs' == fs && terminations == old(terminations)
      ensures thrown.Some? ==>
        && outcome == thrown.value && fs' == Files.CleanupSet(fs, files.directory, files.uniqueId)
        && terminations == old(terminations) + (if resource.Some? then 1 else 0)
    {
      if thrown.None? {
        var successFile := files.GetSuccess(generated);
        if successFile in fs {
          outcome := Ok(stdout);
        } else {
          outcome := Failed(stderr);
        }
        fs' := fs;
      } else {
        fs' := files.Cleanup(fs, generated);
        if resource.Some? {
          terminations := terminations + 1;
        }
        outcome := thrown.value;
      }
    }

    /**
     * The polling loop of `execute`: up to `loopTime + 1` checks with a
     * sleep between two of them. It ends when the process is gone, when the
     * pid lookup fails, or at the last check of a still running process,
     * which is killed; the two exceptions are returned in `thrown`.
     */
    method Supervise(env: Env, generated: string) returns (thrown: Option<Outcome>)
      requires Valid() && !Files.IsEmpty(generated) && !Files.IsEmpty(files.uniqueId)
      requires resource == Some(ProcessHandle(FullCommand(command, Files.SuccessPath(files.directory, files.uniqueId),
                                                          Files.ProcessIdPath(files.directory, files.uniqueId))))
      modifies this`processIsRunning, this`terminations, this`forcedKills, timer, files
      ensures Valid() && timer.timeout == old(timer.timeout)
      ensures files.uniqueId == old(files.uniqueId) && files.directory == old(files.directory)
      ensures processIsRunning ==> old(processIsRunning)
      ensures var p := Poll(env, 0, old(timer.GetLoopTime()), 0, 0);
        && thrown == Raised(p.end, old(resource).value.commandLine)
        && timer.ticks == old(timer.ticks) + p.ticks
        && terminations == old(terminations) + (if p.end.Killed? then 1 else 0)
        && forcedKills == old(forcedKills) + (if p.end.Killed? then [p.end.pid] else [])
    {
      ghost var line := resource.value.commandLine;
      var loopTime := timer.GetLoopTime();
      ghost var whole := Poll(env, 0, loopTime, 0, 0);
      ghost var t0, terminations0, kills0 := timer.ticks, terminations, forcedKills;
      thrown := None;
      var i, pc, ac := 0, 0, 0;
      ghost var sleeps: nat, waited: nat := 0, 0;
      while i <= loopTime
        invariant 0 <= i && (0 <= loopTime ==> i <= loopTime)
        invariant var rest := Poll(env, i, loopTime, pc, ac);
          whole == rest.(pollSleeps := rest.pollSleeps + sleeps, ticks := rest.ticks + waited)
        invariant timer.ticks == t0 + waited
        invariant Valid() && timer.timeout == old(timer.timeout)
        invariant files.uniqueId == old(files.uniqueId) && files.directory == old(files.directory)
        invariant terminations == terminations0 && forcedKills == kills0
        invariant processIsRunning ==> old(processIsRunning)
        decreases loopTime - i
      {
        var running;
        ghost var pc0 := pc;
        running, pc, ac := IsRunning(env, pc, ac);
        if running.None? {
          thrown := Some(NotCreated);
          return;
        }
        if running.value {
          if i == loopTime {
            var e;
            e, pc := Kill(env, pc, generated);
            thrown := Some(e);
            return;
          }
          timer.Sleep();
          sleeps, waited := sleeps + 1, waited + FindPid(env.pidFile, pc0, MaxChecks).sleeps + 1;
        } else {
          return;
        }
        i := i + 1;
      }
    }

    /**
     * Launches the command and supervises it. `fs` is the filesystem when the
     * process is done with; `stdout` and `stderr` are what the pipes hold.
     */
    method Execute(env: Env, fs: set<string>, stdout: string, stderr: string, generated: string)
      returns (outcome: Outcome, fs': set<string>)
      requires Valid() && !Files.IsEmpty(generated)
      modifies this, timer, files
      ensures Valid() && timer.timeout == old(timer.timeout)
      ensures files.uniqueId == Files.IdAfterGet(old(files.uniqueId), generated)
      ensures files.directory == old(files.directory) && descriptorSpec == old(descriptorSpec)
      ensures processIsRunning ==> old(processIsRunning)
      ensures resource == Some(ProcessHandle(FullCommand(command, Files.SuccessPath(files.directory, files.uniqueId),
                                                         Files.ProcessIdPath(files.directory, files.uniqueId))))
      ensures var r := ExecuteSpec(command, files.directory, files.uniqueId, old(timer.GetLoopTime()),
                                   env, fs, stdout, stderr);
        && outcome == r.outcome && fs' == r.files
        && terminations == old(terminations) + r.terminations
        && forcedKills == old(forcedKills) + r.forcedKills
        && timer.ticks == old(timer.ticks) + r.ticks
    {
      RunProcess(generated);
      var thrown := Supervise(env, generated);
      outcome, fs' := Conclude(thrown, fs, stdout, stderr, generated);
    }
  }
}
