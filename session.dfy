/** The driver's session of examples/rust/debug_with_dbg.rs: the cleanup
    before a run (`cleanup_old_state`, `close_session`), the build and the
    daemon start (`compile_target`, `ensure_daemon_running`), the fixed
    sequence of commands of `run`, and `main`.

    The two external processes, `rustc` and the `node` CLI, are given as
    outcomes: not started, or exited with a status and its output. The
    nine socket steps of `run` are listed once, as `SessionPlan`, and the
    run is specified as the plan carried out step by step up to the first
    failure. */
module Session {
  import opened Wrappers
  import opened Text
  import opened Transport
  import opened Config
  import opened Commands
  import opened JsonString

  /** The outcome of starting an external process. */
  datatype Process = NotRun | Exited(success: bool, stdout: string, stderr: string)

  /** The outcomes of the two processes a run starts. */
  datatype Tools = Tools(rustc: Process, cli: Process)

  /** The suffixes of the events database and its two side files. */
  const EventsDbSuffixes: seq<string> := ["", "-wal", "-shm"]

  /** The CLI build artifact, relative to the workspace root. */
  const CliArtifact: string := "packages/cli/dist/cli.js"

  /** The events database and its side files. */
  function EventsDbPaths(config: RunConfig): (paths: seq<string>)
    ensures |paths| == 3
    ensures paths[0] == config.dbgEventsDb && paths[1] == config.dbgEventsDb + "-wal"
            && paths[2] == config.dbgEventsDb + "-shm"
  {
    seq(3, i requires 0 <= i < 3 => config.dbgEventsDb + EventsDbSuffixes[i])
  }

  /** `fs::remove_file` on each path in turn, each failure ignored. */
  function RemoveAll(w: World, paths: seq<string>): World
    decreases |paths|
  {
    if paths == [] then w
    else RemoveFile(RemoveAll(w, paths[..|paths| - 1]), paths[|paths| - 1]).world
  }

  // ---------------------------------------------------------------------
  // close_session and cleanup_old_state
  // ---------------------------------------------------------------------

  /** `close_session`: nothing to do when the socket path does not exist;
      otherwise one close request, whose transport failure is the
      result and whose response is not inspected. */
  function CloseSpec(w: World, config: RunConfig): Step<()>
  {
    if config.dbgSock !in w.files then Effect(Ok(()), w)
    else
      var sent := Send(w, config.dbgSock, CloseRequest);
      match sent.result
      case Err(e) => Effect(Err(SocketFailed(e)), sent.world)
      case Ok(_) => Effect(Ok(()), sent.world)
  }

  method CloseSession(env: Env, config: RunConfig) returns (r: Result<(), DriverError>)
    modifies env
    ensures Effect(r, env.State()) == CloseSpec(old(env.State()), config)
  {
    if !env.Exists(config.dbgSock) {
      return Ok(());
    }
    var response := env.SendCommand(config.dbgSock, CloseRequest);
    if response.Err? {
      return Err(SocketFailed(response.error));
    }
    r := Ok(());
  }

  /** `cleanup_old_state`: remove the socket path and the events database
      files, ignoring every failure, then close a daemon that may still
      listen, ignoring that failure too. */
  function CleanupSpec(w: World, config: RunConfig): Step<()>
  {
    var unlinked := RemoveFile(w, config.dbgSock).world;
    var cleared := RemoveAll(unlinked, EventsDbPaths(config));
    Effect(Ok(()), CloseSpec(cleared, config).world)
  }

  method CleanupOldState(env: Env, config: RunConfig) returns (r: Result<(), DriverError>)
    modifies env
    ensures Effect(r, env.State()) == CleanupSpec(old(env.State()), config)
  {
    var ignored := env.Remove(config.dbgSock);
    ghost var unlinked := env.State();
    ghost var paths := EventsDbPaths(config);
    for i := 0 to |EventsDbSuffixes|
      invariant env.State() == RemoveAll(unlinked, paths[..i])
    {
      var path := config.dbgEventsDb + EventsDbSuffixes[i];
      ignored := env.Remove(path);
      assert paths[..i + 1][..i] == paths[..i];
    }
    assert paths[..3] == paths;
    var closed := CloseSession(env, config);
    r := Ok(());
  }

  // ---------------------------------------------------------------------
  // compile_target and ensure_daemon_running
  // ---------------------------------------------------------------------

  /** `compile_target`: the source must exist; `rustc -g <src> -o <bin>`
      must start and exit with success, and then the binary exists. */
  function CompileSpec(w: World, config: RunConfig, rustc: Process): Step<()>
  {
    if config.targetSrc !in w.files then Effect(Err(TargetNotFound(config.targetSrc)), w)
    else
      match rustc
      case NotRun => Effect(Err(RustcNotRun), w)
      case Exited(success, _, stderr) =>
        if success then Effect(Ok(()), w.(files := w.files + {config.targetBin}))
        else Effect(Err(RustcFailed(stderr)), w)
  }

  method CompileTarget(env: Env, config: RunConfig, rustc: Process) returns (r: Result<(), DriverError>)
    modifies env
    ensures Effect(r, env.State()) == CompileSpec(old(env.State()), config, rustc)
  {
    if !env.Exists(config.targetSrc) {
      return Err(TargetNotFound(config.targetSrc));
    }
    if rustc.NotRun? {
      return Err(RustcNotRun);
    }
    if !rustc.success {
      return Err(RustcFailed(rustc.stderr));
    }
    env.CreateFile(config.targetBin);
    r := Ok(());
  }

  /** Where `run_cli` expects the CLI. */
  function CliPath(config: RunConfig): string
  {
    Join(config.workspaceRoot, CliArtifact)
  }

  /** `ensure_daemon_running`: `node <cli> status` through `run_cli`, which
      first needs the CLI artifact to exist. A successful status leaves a
      daemon listening on the socket path. */
  function DaemonSpec(w: World, config: RunConfig, cli: Process): Step<()>
  {
    if CliPath(config) !in w.files then Effect(Err(CliMissing(CliPath(config))), w)
    else
      match cli
      case NotRun => Effect(Err(CliNotRun), w)
      case Exited(success, _, stderr) =>
        if success then Effect(Ok(()), w.(files := w.files + {config.dbgSock}))
        else Effect(Err(DaemonStartFailed(stderr)), w)
  }

  method EnsureDaemonRunning(env: Env, config: RunConfig, cli: Process) returns (r: Result<(), DriverError>)
    modifies env
    ensures Effect(r, env.State()) == DaemonSpec(old(env.State()), config, cli)
  {
    var cliPath := Join(config.workspaceRoot, CliArtifact);
    if !env.Exists(cliPath) {
      return Err(CliMissing(cliPath));
    }
    if cli.NotRun? {
      return Err(CliNotRun);
    }
    if !cli.success {
      return Err(DaemonStartFailed(cli.stderr));
    }
    env.CreateFile(config.dbgSock);
    r := Ok(());
  }

  // ---------------------------------------------------------------------
  // run
  // ---------------------------------------------------------------------

  /** The socket steps of `run`: a command under `run_command_retry`, the
      threads query with its check for an empty result, a
      `wait_for_status`, `ensure_paused`, and the final `close_session`. */
  datatype Stage =
    | Retried(name: string, request: string)
    | Threads
    | AwaitConnected
    | AwaitPaused
    | CloseSocket

  /** The steps of `run` after the daemon is up, in their order. */
  function SessionPlan(config: RunConfig): seq<Stage>
  {
    [Retried("attach-lldb", JsonAttachLldb(config.targetBin)),
     AwaitConnected,
     Retried("frames", FramesRequest),
     Threads,
     AwaitPaused,
     Retried("step-over", StepRequest),
     AwaitConnected,
     Retried("trace", TraceRequest),
     CloseSocket]
  }

  /** A step's value is dropped; its failure is kept. */
  function Discard<T>(s: Step<T>): Step<()>
  {
    Effect(if s.result.Ok? then Ok(()) else Err(s.result.error), s.world)
  }

  /** One socket step of `run`. */
  function StageSpec(w: World, config: RunConfig, stage: Stage): Step<()>
  {
    match stage
    case Retried(name, request) => Discard(Retry(w, config.dbgSock, name, request, CommandRetryAttempts))
    case Threads =>
      var s := Retry(w, config.dbgSock, "threads", ThreadsRequest, CommandRetryAttempts);
      if s.result.Ok? && Contains(s.result.value, NoRowsMarker) then Effect(Err(NoThreads), s.world)
      else Discard(s)
    case AwaitConnected => Discard(Wait(w, config.dbgSock, PauseWaitPolls))
    case AwaitPaused => EnsurePausedSpec(w, config.dbgSock, PauseWaitPolls)
    case CloseSocket => CloseSpec(w, config)
  }

  /** The steps carried out in order, up to the first that fails. */
  function RunStages(w: World, config: RunConfig, stages: seq<Stage>): Step<()>
    decreases |stages|
  {
    if stages == [] then Effect(Ok(()), w)
    else
      var s := StageSpec(w, config, stages[0]);
      if s.result.Err? then s else RunStages(s.world, config, stages[1..])
  }

  /** The part of `run` before the socket steps: cleanup, build, daemon
      start, stopping at the first failure. */
  function Setup(w: World, config: RunConfig, tools: Tools): Step<()>
  {
    var cleaned := CleanupSpec(w, config).world;
    var compiled := CompileSpec(cleaned, config, tools.rustc);
    if compiled.result.Err? then compiled else DaemonSpec(compiled.world, config, tools.cli)
  }

  /** `run`: the setup, then the session's steps; the first failure ends
      the run. */
  function RunSpec(w: World, config: RunConfig, tools: Tools): Step<()>
  {
    var setup := Setup(w, config, tools);
    if setup.result.Err? then setup else RunStages(setup.world, config, SessionPlan(config))
  }

  /** The remaining steps from the `k`-th on, when the `k`-th has effect
      `s`: `s` itself if it failed, and otherwise the steps after it. */
  lemma StageThen(w: World, config: RunConfig, stages: seq<Stage>, k: nat, s: Step<()>)
    requires k < |stages| && s == StageSpec(w, config, stages[k])
    ensures s.result.Err? ==> RunStages(w, config, stages[k..]) == s
    ensures s.result.Ok? ==> RunStages(w, config, stages[k..]) == RunStages(s.world, config, stages[k + 1..])
  {
    assert stages[k..][0] == stages[k];
    assert stages[k..][1..] == stages[k + 1..];
  }

  /** The threads query of `run`: a response showing no rows ends the run. */
  method QueryThreads(env: Env, config: RunConfig) returns (r: Result<(), DriverError>)
    modifies env
    ensures Effect(r, env.State()) == StageSpec(old(env.State()), config, Threads)
  {
    var threads := RunCommandRetry(env, config, "threads", ThreadsRequest, CommandRetryAttempts);
    if threads.Err? {
      return Err(threads.error);
    }
    if Contains(threads.value, NoRowsMarker) {
      return Err(NoThreads);
    }
    r := Ok(());
  }

  /** `run`. */
  method Run(env: Env, config: RunConfig, tools: Tools) returns (r: Result<(), DriverError>)
    modifies env
    ensures Effect(r, env.State()) == RunSpec(old(env.State()), config, tools)
  {
    r := CleanupOldState(env, config);
    r := CompileTarget(env, config, tools.rustc);
    if r.Err? {
      return;
    }
    r := EnsureDaemonRunning(env, config, tools.cli);
    if r.Err? {
      return;
    }
    r := RunSession(env, config);
  }

  /** One socket step of `run`, by the driver function that carries it
      out; only the failure of a step is kept. */
  method RunStage(env: Env, config: RunConfig, stage: Stage) returns (r: Result<(), DriverError>)
    modifies env
    ensures Effect(r, env.State()) == StageSpec(old(env.State()), config, stage)
  {
    match stage
    case Retried(name, request) =>
      var response := RunCommandRetry(env, config, name, request, CommandRetryAttempts);
      r := if response.Ok? then Ok(()) else Err(response.error);
    case Threads =>
      r := QueryThreads(env, config);
    case AwaitConnected =>
      var status := WaitForStatus(env, config, PauseWaitPolls);
      r := if status.Ok? then Ok(()) else Err(status.error);
    case AwaitPaused =>
      r := EnsurePaused(env, config, PauseWaitPolls);
    case CloseSocket =>
      r := CloseSession(env, config);
  }

  /** The socket steps of `run`, from the attach to the close, each in
      turn until one fails. */
  method RunSession(env: Env, config: RunConfig) returns (r: Result<(), DriverError>)
    modifies env
    ensures Effect(r, env.State()) == RunStages(old(env.State()), config, SessionPlan(config))
  {
    var plan := SessionPlan(config);
    ghost var spec := RunStages(env.State(), config, plan);
    assert plan[0..] == plan;
    for k := 0 to |plan|
      invariant spec == RunStages(env.State(), config, plan[k..])
    {
      ghost var w := env.State();
      r := RunStage(env, config, plan[k]);
      StageThen(w, config, plan, k, Effect(r, env.State()));
      if r.Err? {
        return;
      }
    }
    r := Ok(());
  }

  // ---------------------------------------------------------------------
  // main
  // ---------------------------------------------------------------------

  /** `main`: the configuration from the environment, the run, and on
      failure a best-effort close and exit status 1. */
  function MainSpec(w: World, vars: map<string, string>, cwd: Option<string>, tools: Tools): Effect<int>
  {
    var config := ParseConfig(vars, cwd);
    var s := RunSpec(w, config, tools);
    if s.result.Err? then Effect(1, CloseSpec(s.world, config).world) else Effect(0, s.world)
  }

  method DebugMain(env: Env, vars: map<string, string>, cwd: Option<string>, tools: Tools) returns (exitCode: int)
    modifies env
    ensures Effect(exitCode, env.State()) == MainSpec(old(env.State()), vars, cwd, tools)
  {
    var config := ParseConfig(vars, cwd);
    var r := Run(env, config, tools);
    if r.Err? {
      var ignored := CloseSession(env, config);
      return 1;
    }
    exitCode := 0;
  }
}
