/** What a run leaves behind: what cleanup removes and when it sends a
    close, when the build and the daemon start fail, and the order of the
    socket commands, cut into one segment of the trace per step of the
    session plan. */
module RunProperties {
  import opened Wrappers
  import opened Text
  import opened Transport
  import opened Config
  import opened Commands
  import opened JsonString
  import opened Traces
  import opened Polling
  import opened RetryProperties
  import opened WaitProperties
  import opened PauseProperties
  import opened Session

  // ---------------------------------------------------------------------
  // Cleanup and close
  // ---------------------------------------------------------------------

  /** The paths cleanup tries to remove. */
  function CleanupPaths(config: RunConfig): set<string>
  {
    {config.dbgSock} + set p | p in EventsDbPaths(config)
  }

  /** Removing several paths removes exactly those that exist and are not
      locked, and changes nothing else. */
  lemma {:induction false} RemoveAllRemoves(w: World, paths: seq<string>)
    ensures RemoveAll(w, paths) == w.(files := w.files - (set p | p in paths && p !in w.locked))
    decreases |paths|
  {
    if paths != [] {
      var front := paths[..|paths| - 1];
      RemoveAllRemoves(w, front);
      assert paths == front + [paths[|paths| - 1]];
      assert (set p | p in paths && p !in w.locked)
          == (set p | p in front && p !in w.locked) + (if paths[|paths| - 1] in w.locked then {} else {paths[|paths| - 1]});
    }
  }

  /** `close_session` sends one close request exactly when the socket path
      exists, fails exactly when that request meets a transport error, and
      touches no file. */
  lemma CloseOutcome(w: World, config: RunConfig)
    ensures var s := CloseSpec(w, config);
            && Extends(w, s.world)
            && s.world.files == w.files && s.world.locked == w.locked
            && Added(w, s.world) == (if config.dbgSock in w.files then [Call(CloseRequest, AnswerAt(w, config.dbgSock, 0))] else [])
            && (s.result.Ok? <==> config.dbgSock !in w.files || AnswerAt(w, config.dbgSock, 0).Ok?)
            && (s.result.Err? ==> s.result == Err(SocketFailed(AnswerAt(w, config.dbgSock, 0).error)))
  {
    var s := CloseSpec(w, config);
    if config.dbgSock in w.files {
      AddedAppend(w, s.world, [Call(CloseRequest, AnswerAt(w, config.dbgSock, 0))]);
    } else {
      AddedAppend(w, s.world, []);
    }
  }

  /** Cleanup always succeeds. Afterwards the socket path and the events
      database files are gone, except those that could not be removed,
      and no other file changed. A close request is sent exactly when the
      socket path existed and could not be removed. */
  lemma CleanupOutcome(w: World, config: RunConfig)
    ensures var c := CleanupSpec(w, config);
            && c.result == Ok(())
            && c.world.files == w.files - (CleanupPaths(config) - w.locked)
            && c.world.locked == w.locked
            && Extends(w, c.world)
            && Added(w, c.world) == (if config.dbgSock in w.files && config.dbgSock in w.locked
                                     then [Call(CloseRequest, AnswerAt(w, config.dbgSock, 0))] else [])
  {
    var unlinked := RemoveFile(w, config.dbgSock).world;
    var cleared := RemoveAll(unlinked, EventsDbPaths(config));
    RemoveAllRemoves(unlinked, EventsDbPaths(config));
    assert cleared.files == w.files - (CleanupPaths(config) - w.locked);
    CloseOutcome(cleared, config);
  }

  /** Cleanup twice is cleanup once, except for the close request, which
      the second cleanup sends again when the socket path is still
      there. */
  lemma CleanupTwice(w: World, config: RunConfig)
    ensures var once := CleanupSpec(w, config).world;
            var twice := CleanupSpec(once, config).world;
            && twice.files == once.files
            && (!(config.dbgSock in w.files && config.dbgSock in w.locked) ==> twice == once)
            && (config.dbgSock in w.files && config.dbgSock in w.locked ==>
                  twice.trace == once.trace + [Call(CloseRequest, AnswerAt(once, config.dbgSock, 0))])
  {
    var once := CleanupSpec(w, config).world;
    CleanupOutcome(w, config);
    CleanupOutcome(once, config);
    var twice := CleanupSpec(once, config).world;
    if !(config.dbgSock in w.files && config.dbgSock in w.locked) {
      var unlinked := RemoveFile(once, config.dbgSock).world;
      RemoveAllRemoves(unlinked, EventsDbPaths(config));
      assert RemoveAll(unlinked, EventsDbPaths(config)) == once;
    }
  }

  // ---------------------------------------------------------------------
  // Build and daemon start
  // ---------------------------------------------------------------------

  /** The build succeeds exactly when the source exists and `rustc` ran
      and succeeded, and then the binary exists; a failed build changes
      nothing; a missing source is reported before `rustc` is looked at.
      No socket is used. */
  lemma CompileOutcome(w: World, config: RunConfig, rustc: Process)
    ensures var s := CompileSpec(w, config, rustc);
            && s.world.trace == w.trace && s.world.script == w.script && s.world.locked == w.locked
            && (s.result.Ok? <==> config.targetSrc in w.files && rustc.Exited? && rustc.success)
            && (s.result.Ok? ==> s.world.files == w.files + {config.targetBin})
            && (s.result.Err? ==> s.world == w)
            && (config.targetSrc !in w.files ==> s.result == Err(TargetNotFound(config.targetSrc)))
            && (config.targetSrc in w.files && rustc.Exited? && !rustc.success ==>
                  s.result == Err(RustcFailed(rustc.stderr)))
  {
  }

  /** The daemon start succeeds exactly when the CLI artifact exists and
      `status` ran and succeeded, and then the socket path exists; a
      failure changes nothing. The artifact sits under the workspace
      root. */
  lemma DaemonOutcome(w: World, config: RunConfig, cli: Process)
    ensures var s := DaemonSpec(w, config, cli);
            && s.world.trace == w.trace && s.world.script == w.script && s.world.locked == w.locked
            && (s.result.Ok? <==> CliPath(config) in w.files && cli.Exited? && cli.success)
            && (s.result.Ok? ==> s.world.files == w.files + {config.dbgSock})
            && (s.result.Err? ==> s.world == w)
            && (CliPath(config) !in w.files ==> s.result == Err(CliMissing(CliPath(config))))
    ensures config.workspaceRoot != [] && config.workspaceRoot[|config.workspaceRoot| - 1] != '/' ==>
              CliPath(config) == config.workspaceRoot + "/" + CliArtifact
  {
    if config.workspaceRoot != [] && config.workspaceRoot[|config.workspaceRoot| - 1] != '/' {
      var p := CliPath(config);
      assert p[..|config.workspaceRoot|] == config.workspaceRoot;
      assert p[|config.workspaceRoot| + 1..] == CliArtifact;
      assert p == p[..|config.workspaceRoot|] + [p[|config.workspaceRoot|]] + p[|config.workspaceRoot| + 1..];
    }
  }

  /** A failed setup is the run's result: no socket step runs, and the
      only exchange that may have happened is cleanup's close. */
  lemma SetupFailureEndsRun(w: World, config: RunConfig, tools: Tools)
    requires Setup(w, config, tools).result.Err?
    ensures RunSpec(w, config, tools) == Setup(w, config, tools)
    ensures RunSpec(w, config, tools).world.trace == CleanupSpec(w, config).world.trace
    ensures RunSpec(w, config, tools).world.script == CleanupSpec(w, config).world.script
  {
    var cleaned := CleanupSpec(w, config).world;
    CompileOutcome(cleaned, config, tools.rustc);
    var compiled := CompileSpec(cleaned, config, tools.rustc);
    if compiled.result.Ok? {
      DaemonOutcome(compiled.world, config, tools.cli);
    }
  }

  // ---------------------------------------------------------------------
  // The steps of the session
  // ---------------------------------------------------------------------

  /** The trace holds `1` to `max` exchanges, all of them with `request`. */
  ghost predicate Repeats(events: seq<Event>, request: string, max: nat)
  {
    1 <= |Requests(events)| <= max && Requests(events) == Repeat(request, |Requests(events)|)
  }

  /** What each step may leave in the trace. */
  ghost predicate StageLog(stage: Stage, events: seq<Event>)
  {
    match stage
    case Retried(_, request) => Repeats(events, request, CommandRetryAttempts)
    case Threads => Repeats(events, ThreadsRequest, CommandRetryAttempts)
    case AwaitConnected => Repeats(events, StatusRequest, PauseWaitPolls)
    case AwaitPaused =>
      && OnlyStatusAndPause(events) && |events| >= 1
      && events[0].Call? && events[0].request == StatusRequest
      && 1 <= |Requests(events)| && CallsTo(events, StatusRequest) <= PauseWaitPolls
    case CloseSocket => Requests(events) == [CloseRequest]
  }

  /** How each step can fail. */
  predicate StageFailure(stage: Stage, e: DriverError)
  {
    match stage
    case Retried(name, _) => e.SocketFailed? || (e.RetryExhausted? && e.command == name)
    case Threads => e.SocketFailed? || (e.RetryExhausted? && e.command == "threads") || e == NoThreads
    case AwaitConnected => e.SocketFailed? || e == StatusTimeout
    case AwaitPaused => e.SocketFailed? || e == PauseTimeout
    case CloseSocket => e.SocketFailed?
  }

  /** The first request of each step. */
  function StageRequest(stage: Stage): string
  {
    match stage
    case Retried(_, request) => request
    case Threads => ThreadsRequest
    case AwaitConnected => StatusRequest
    case AwaitPaused => StatusRequest
    case CloseSocket => CloseRequest
  }

  /** A retried command sends its request one to three times and fails
      only by a transport error or by running out of attempts. */
  lemma RetriedStage(w: World, config: RunConfig, name: string, request: string)
    ensures var s := StageSpec(w, config, Retried(name, request));
            && Extends(w, s.world)
            && s.world.files == w.files && s.world.locked == w.locked
            && StageLog(Retried(name, request), Added(w, s.world))
            && (s.result.Err? ==> StageFailure(Retried(name, request), s.result.error))
  {
    RetryCounts(w, config.dbgSock, name, request, CommandRetryAttempts);
  }

  /** The threads query is a retried command that also fails when its
      response shows no rows. */
  lemma ThreadsStage(w: World, config: RunConfig)
    ensures var s := StageSpec(w, config, Threads);
            && Extends(w, s.world)
            && s.world.files == w.files && s.world.locked == w.locked
            && StageLog(Threads, Added(w, s.world))
            && (s.result.Err? ==> StageFailure(Threads, s.result.error))
  {
    RetryCounts(w, config.dbgSock, "threads", ThreadsRequest, CommandRetryAttempts);
  }

  /** A wait for a connected status polls one to sixty times. */
  lemma ConnectedStage(w: World, config: RunConfig)
    ensures var s := StageSpec(w, config, AwaitConnected);
            && Extends(w, s.world)
            && s.world.files == w.files && s.world.locked == w.locked
            && StageLog(AwaitConnected, Added(w, s.world))
            && (s.result.Err? ==> StageFailure(AwaitConnected, s.result.error))
  {
    WaitCounts(w, config.dbgSock, PauseWaitPolls);
  }

  /** The pause loop starts with a status query and sends nothing but
      status queries and pauses. */
  lemma PausedStage(w: World, config: RunConfig)
    ensures var s := StageSpec(w, config, AwaitPaused);
            && Extends(w, s.world)
            && s.world.files == w.files && s.world.locked == w.locked
            && StageLog(AwaitPaused, Added(w, s.world))
            && (s.result.Err? ==> StageFailure(AwaitPaused, s.result.error))
  {
    var s := EnsurePausedSpec(w, config.dbgSock, PauseWaitPolls);
    EnsurePausedCounts(w, config.dbgSock, PauseWaitPolls);
    EnsurePausedShape(w, config.dbgSock, PauseWaitPolls);
    PausedFromLog(w, config.dbgSock, PauseWaitPolls, s);
    LogResult(Added(w, s.world), PauseWaitPolls, s.result);
    var events := Added(w, s.world);
    assert Requests(events) == [StatusRequest] + Requests(events[1..]);
  }

  /** The final close sends one close request when the socket exists. */
  lemma CloseStage(w: World, config: RunConfig)
    requires config.dbgSock in w.files
    ensures var s := StageSpec(w, config, CloseSocket);
            && Extends(w, s.world)
            && s.world.files == w.files && s.world.locked == w.locked
            && StageLog(CloseSocket, Added(w, s.world))
            && (s.result.Err? ==> StageFailure(CloseSocket, s.result.error))
  {
    CloseOutcome(w, config);
    var e := Call(CloseRequest, AnswerAt(w, config.dbgSock, 0));
    assert Requests([e]) == [CloseRequest] + Requests([e][1..]);
  }

  /** Every step, with the socket path in place: it extends the trace by
      a log of its kind, touches no file, and fails only in its own
      ways. */
  lemma StageEffect(w: World, config: RunConfig, stage: Stage)
    requires config.dbgSock in w.files
    ensures var s := StageSpec(w, config, stage);
            && Extends(w, s.world)
            && s.world.files == w.files && s.world.locked == w.locked
            && StageLog(stage, Added(w, s.world))
            && (s.result.Err? ==> StageFailure(stage, s.result.error))
  {
    match stage
    case Retried(name, request) => RetriedStage(w, config, name, request);
    case Threads => ThreadsStage(w, config);
    case AwaitConnected => ConnectedStage(w, config);
    case AwaitPaused => PausedStage(w, config);
    case CloseSocket => CloseStage(w, config);
  }

  /** The pieces of the trace that the steps carried out append, one per
      step, up to and including the first that fails. */
  ghost function Segments(w: World, config: RunConfig, stages: seq<Stage>): seq<seq<Event>>
    requires config.dbgSock in w.files
    decreases |stages|
  {
    if stages == [] then []
    else
      var s := StageSpec(w, config, stages[0]);
      StageEffect(w, config, stages[0]);
      [Added(w, s.world)] + (if s.result.Err? then [] else Segments(s.world, config, stages[1..]))
  }

  /** The pieces of a trace put back together. */
  function Flatten(segs: seq<seq<Event>>): seq<Event>
  {
    if segs == [] then [] else segs[0] + Flatten(segs[1..])
  }

  /** The steps carried out in order: the trace is the concatenation of
      one log per step carried out, of that step's kind; the steps stop
      only at a failure, which is one of the last step's own failures;
      success means every step ran. */
  lemma {:induction false} RunStagesLog(w: World, config: RunConfig, stages: seq<Stage>)
    requires config.dbgSock in w.files
    ensures var s := RunStages(w, config, stages);
            var segs := Segments(w, config, stages);
            && Extends(w, s.world)
            && s.world.files == w.files && s.world.locked == w.locked
            && Added(w, s.world) == Flatten(segs)
            && |segs| <= |stages| && (stages != [] ==> |segs| >= 1)
            && (forall i :: 0 <= i < |segs| ==> StageLog(stages[i], segs[i]))
            && (s.result.Ok? ==> |segs| == |stages|)
            && (|segs| < |stages| ==> s.result.Err?)
            && (s.result.Err? ==> |segs| >= 1 && StageFailure(stages[|segs| - 1], s.result.error))
    decreases |stages|
  {
    if stages == [] {
      AddedAppend(w, w, []);
    } else {
      var s0 := StageSpec(w, config, stages[0]);
      StageEffect(w, config, stages[0]);
      if s0.result.Err? {
        assert Flatten([Added(w, s0.world)]) == Added(w, s0.world) + Flatten([]);
      } else {
        RunStagesStep(w, config, stages, s0);
      }
    }
  }

  /** The step of the induction: a first step that succeeded. */
  lemma {:induction false} RunStagesStep(w: World, config: RunConfig, stages: seq<Stage>, s0: Step<()>)
    requires config.dbgSock in w.files && stages != []
    requires s0 == StageSpec(w, config, stages[0]) && s0.result.Ok?
    requires Extends(w, s0.world) && s0.world.files == w.files && s0.world.locked == w.locked
    requires StageLog(stages[0], Added(w, s0.world))
    ensures var s := RunStages(w, config, stages);
            var segs := Segments(w, config, stages);
            && Extends(w, s.world)
            && s.world.files == w.files && s.world.locked == w.locked
            && Added(w, s.world) == Flatten(segs)
            && |segs| <= |stages| && |segs| >= 1
            && (forall i :: 0 <= i < |segs| ==> StageLog(stages[i], segs[i]))
            && (s.result.Ok? ==> |segs| == |stages|)
            && (|segs| < |stages| ==> s.result.Err?)
            && (s.result.Err? ==> StageFailure(stages[|segs| - 1], s.result.error))
    decreases |stages|, 0
  {
    var rest := stages[1..];
    var s := RunStages(s0.world, config, rest);
    var tail := Segments(s0.world, config, rest);
    RunStagesLog(s0.world, config, rest);
    UnfoldStages(w, config, stages, s0);
    AddedChain(w, s0.world, s.world);
    CombineLogs(stages, Added(w, s0.world), tail);
    if s.result.Err? {
      assert stages[|tail|] == rest[|tail| - 1];
    }
  }

  /** The steps after a first step that succeeded. */
  lemma UnfoldStages(w: World, config: RunConfig, stages: seq<Stage>, s0: Step<()>)
    requires config.dbgSock in w.files && stages != []
    requires s0 == StageSpec(w, config, stages[0]) && s0.result.Ok?
    requires Extends(w, s0.world) && s0.world.files == w.files
    ensures RunStages(w, config, stages) == RunStages(s0.world, config, stages[1..])
    ensures Segments(w, config, stages) == [Added(w, s0.world)] + Segments(s0.world, config, stages[1..])
  {
    StageEffect(w, config, stages[0]);
  }

  /** A first log in front of the logs of the other steps. */
  lemma CombineLogs(stages: seq<Stage>, first: seq<Event>, tail: seq<seq<Event>>)
    requires stages != [] && |tail| <= |stages| - 1
    requires StageLog(stages[0], first)
    requires forall i :: 0 <= i < |tail| ==> StageLog(stages[1..][i], tail[i])
    ensures Flatten([first] + tail) == first + Flatten(tail)
    ensures forall i :: 0 <= i < |[first] + tail| ==> StageLog(stages[i], ([first] + tail)[i])
  {
    var segs := [first] + tail;
    assert segs[1..] == tail;
    forall i | 0 <= i < |segs| ensures StageLog(stages[i], segs[i]) {
      if i > 0 {
        assert stages[i] == stages[1..][i - 1] && segs[i] == tail[i - 1];
      }
    }
  }

  // ---------------------------------------------------------------------
  // The run
  // ---------------------------------------------------------------------

  /** The socket command order of a successful run: after the setup, the
      trace falls into nine pieces, one per step of the plan, and the
      pieces start with the attach request, a status query, the frames
      query, the threads query, a status query (the pause loop), the step
      request, a status query, the trace request and the close request,
      in this order. */
  lemma RunOrder(w: World, config: RunConfig, tools: Tools)
    requires RunSpec(w, config, tools).result.Ok?
    ensures var setup := Setup(w, config, tools);
            var s := RunSpec(w, config, tools);
            var segs := Segments(setup.world, config, SessionPlan(config));
            && setup.result.Ok? && config.dbgSock in setup.world.files
            && Extends(setup.world, s.world)
            && Added(setup.world, s.world) == Flatten(segs)
            && |segs| == 9
            && (forall i :: 0 <= i < 9 ==> StageLog(SessionPlan(config)[i], segs[i]))
            && (forall i :: 0 <= i < 9 ==> Requests(segs[i]) != [] && Requests(segs[i])[0] == CommandOrder(config)[i])
  {
    var setup := Setup(w, config, tools);
    SetupSocket(w, config, tools);
    var plan := SessionPlan(config);
    RunStagesLog(setup.world, config, plan);
    var segs := Segments(setup.world, config, plan);
    PlanOrder(config);
    forall i | 0 <= i < 9 ensures Requests(segs[i]) != [] && Requests(segs[i])[0] == CommandOrder(config)[i] {
      FirstRequest(plan[i], segs[i]);
    }
  }

  /** The requests that open the nine steps of a run, in order. */
  function CommandOrder(config: RunConfig): seq<string>
  {
    [JsonAttachLldb(config.targetBin), StatusRequest, FramesRequest, ThreadsRequest, StatusRequest,
     StepRequest, StatusRequest, TraceRequest, CloseRequest]
  }

  /** The plan's steps open with the requests of `CommandOrder`. */
  lemma PlanOrder(config: RunConfig)
    ensures |SessionPlan(config)| == |CommandOrder(config)| == 9
    ensures forall i :: 0 <= i < 9 ==> StageRequest(SessionPlan(config)[i]) == CommandOrder(config)[i]
  {
  }

  /** A setup that succeeded leaves the socket path in place. */
  lemma SetupSocket(w: World, config: RunConfig, tools: Tools)
    requires Setup(w, config, tools).result.Ok?
    ensures config.dbgSock in Setup(w, config, tools).world.files
  {
    var cleaned := CleanupSpec(w, config).world;
    CompileOutcome(cleaned, config, tools.rustc);
    DaemonOutcome(CompileSpec(cleaned, config, tools.rustc).world, config, tools.cli);
  }

  /** Every step's log starts with the step's request. */
  lemma FirstRequest(stage: Stage, events: seq<Event>)
    requires StageLog(stage, events)
    ensures Requests(events) != [] && Requests(events)[0] == StageRequest(stage)
  {
    if stage.AwaitPaused? {
      assert Requests(events) == [StatusRequest] + Requests(events[1..]);
    }
  }

  /** A failed run failed in one of the plan's steps, in that step's own
      way, and no later step ran. */
  lemma RunFailure(w: World, config: RunConfig, tools: Tools)
    requires Setup(w, config, tools).result.Ok? && RunSpec(w, config, tools).result.Err?
    ensures var setup := Setup(w, config, tools);
            var s := RunSpec(w, config, tools);
            var segs := Segments(setup.world, config, SessionPlan(config));
            && config.dbgSock in setup.world.files
            && Extends(setup.world, s.world)
            && Added(setup.world, s.world) == Flatten(segs)
            && 1 <= |segs| <= 9
            && StageFailure(SessionPlan(config)[|segs| - 1], s.result.error)
  {
    var setup := Setup(w, config, tools);
    SetupSocket(w, config, tools);
    RunStagesLog(setup.world, config, SessionPlan(config));
  }

  /** A threads response that shows no rows ends the steps right there,
      whatever steps were to follow: `ensure_paused` never runs. */
  lemma NoRowsStops(w: World, config: RunConfig, rest: seq<Stage>)
    requires var q := Retry(w, config.dbgSock, "threads", ThreadsRequest, CommandRetryAttempts);
             q.result.Ok? && Contains(q.result.value, NoRowsMarker)
    ensures RunStages(w, config, [Threads] + rest)
         == Effect(Err(NoThreads), Retry(w, config.dbgSock, "threads", ThreadsRequest, CommandRetryAttempts).world)
  {
    assert ([Threads] + rest)[0] == Threads;
  }

  /** A run that failed for lack of threads stopped after its fourth step,
      the threads query: of the plan only the attach, the wait for a
      connected status, the frames query and the threads query ran, so no
      pause and no step request was sent. */
  lemma RunNoThreads(w: World, config: RunConfig, tools: Tools)
    requires RunSpec(w, config, tools).result == Err(NoThreads)
    ensures var setup := Setup(w, config, tools);
            var s := RunSpec(w, config, tools);
            && setup.result.Ok?
            && Extends(setup.world, s.world)
            && |Segments(setup.world, config, SessionPlan(config))| == 4
            && (forall q :: (q != JsonAttachLldb(config.targetBin) && q != StatusRequest && q != FramesRequest
                             && q != ThreadsRequest) ==> CallsTo(Added(setup.world, s.world), q) == 0)
            && CallsTo(Added(setup.world, s.world), PauseRequest) == 0
            && CallsTo(Added(setup.world, s.world), StepRequest) == 0
  {
    var setup := Setup(w, config, tools);
    SetupFailure(w, config, tools);
    RunFailure(w, config, tools);
    var segs := Segments(setup.world, config, SessionPlan(config));
    RunStagesLog(setup.world, config, SessionPlan(config));
    NoThreadsOnlyAtThreads(config, |segs| - 1);
    FirstFourCalls(config, segs);
    AttachIsNotPause(config.targetBin);
  }

  /** The setup fails only in its own ways. */
  lemma SetupFailure(w: World, config: RunConfig, tools: Tools)
    ensures var e := Setup(w, config, tools).result;
            e.Err? ==> e.error.TargetNotFound? || e.error.RustcNotRun? || e.error.RustcFailed?
                       || e.error.CliMissing? || e.error.CliNotRun? || e.error.DaemonStartFailed?
  {
  }

  /** Of the plan's steps, only the threads query fails for lack of
      threads. */
  lemma NoThreadsOnlyAtThreads(config: RunConfig, i: int)
    requires 0 <= i < 9 && StageFailure(SessionPlan(config)[i], NoThreads)
    ensures i == 3
  {
  }

  /** The logs of the first four steps hold no request but theirs. */
  lemma FirstFourCalls(config: RunConfig, segs: seq<seq<Event>>)
    requires |segs| == 4 && forall i :: 0 <= i < 4 ==> StageLog(SessionPlan(config)[i], segs[i])
    ensures forall q :: (q != JsonAttachLldb(config.targetBin) && q != StatusRequest && q != FramesRequest
                         && q != ThreadsRequest) ==> CallsTo(Flatten(segs), q) == 0
  {
    var attach := JsonAttachLldb(config.targetBin);
    PlanStart(config);
    assert StageLog(Retried("attach-lldb", attach), segs[0]) && StageLog(AwaitConnected, segs[1]);
    assert StageLog(Retried("frames", FramesRequest), segs[2]) && StageLog(Threads, segs[3]);
    FourRequests(segs, attach, StatusRequest, FramesRequest, ThreadsRequest,
                 CommandRetryAttempts, PauseWaitPolls);
  }

  /** The first four steps of the plan. */
  lemma PlanStart(config: RunConfig)
    ensures |SessionPlan(config)| == 9
    ensures SessionPlan(config)[0] == Retried("attach-lldb", JsonAttachLldb(config.targetBin))
    ensures SessionPlan(config)[1] == AwaitConnected
    ensures SessionPlan(config)[2] == Retried("frames", FramesRequest)
    ensures SessionPlan(config)[3] == Threads
  {
  }

  /** Four logs, each of one request, hold no other request. */
  lemma FourRequests(segs: seq<seq<Event>>, a: string, b: string, c: string, d: string, m: nat, n: nat)
    requires |segs| == 4
    requires Repeats(segs[0], a, m) && Repeats(segs[1], b, n)
    requires Repeats(segs[2], c, m) && Repeats(segs[3], d, m)
    ensures forall q :: (q != a && q != b && q != c && q != d) ==> CallsTo(Flatten(segs), q) == 0
  {
    FlattenFour(segs);
    forall q | q != a && q != b && q != c && q != d
      ensures CallsTo(Flatten(segs), q) == 0
    {
      RepeatsNoOther(segs[0], a, m, q);
      RepeatsNoOther(segs[1], b, n, q);
      RepeatsNoOther(segs[2], c, m, q);
      RepeatsNoOther(segs[3], d, m, q);
      CallsToConcat(segs[0], segs[1], q);
      CallsToConcat(segs[0] + segs[1], segs[2], q);
      CallsToConcat(segs[0] + segs[1] + segs[2], segs[3], q);
    }
  }

  /** Four pieces put back together. */
  lemma FlattenFour(segs: seq<seq<Event>>)
    requires |segs| == 4
    ensures Flatten(segs) == segs[0] + segs[1] + segs[2] + segs[3]
  {
    assert Flatten(segs[3..]) == segs[3] + Flatten(segs[4..]);
    assert Flatten(segs[2..]) == segs[2] + Flatten(segs[3..]);
    assert Flatten(segs[1..]) == segs[1] + Flatten(segs[2..]);
  }

  /** A log of one request holds no exchange with any other request. */
  lemma RepeatsNoOther(events: seq<Event>, request: string, max: nat, q: string)
    requires Repeats(events, request, max) && q != request
    ensures CallsTo(events, q) == 0
  {
    NoCallsOutsideRequests(events, q);
  }

  /** A request that is not among the requests of a trace has no exchange
      in it. */
  lemma {:induction false} NoCallsOutsideRequests(events: seq<Event>, q: string)
    requires q !in Requests(events)
    ensures CallsTo(events, q) == 0
  {
    if events != [] {
      assert Requests(events) == (if events[0].Call? then [events[0].request] else []) + Requests(events[1..]);
      NoCallsOutsideRequests(events[1..], q);
    }
  }

  /** None of the four requests before the pause loop is a pause or a
      step request. */
  lemma AttachIsNotPause(bin: string)
    ensures JsonAttachLldb(bin) != PauseRequest && StatusRequest != PauseRequest
    ensures FramesRequest != PauseRequest && ThreadsRequest != PauseRequest
    ensures JsonAttachLldb(bin) != StepRequest && StatusRequest != StepRequest
    ensures FramesRequest != StepRequest && ThreadsRequest != StepRequest
  {
    var line := JsonAttachLldb(bin);
    assert line[8] == AttachPrefix[8] == 'a';
    assert PauseRequest[8] == 'p' && StepRequest[8] == 'n';
    assert |StatusRequest| != |PauseRequest| && |StatusRequest| != |StepRequest|;
    assert |FramesRequest| != |PauseRequest| && |ThreadsRequest| != |PauseRequest|;
    assert |FramesRequest| != |StepRequest| && |ThreadsRequest| != |StepRequest|;
  }

  // ---------------------------------------------------------------------
  // main
  // ---------------------------------------------------------------------

  /** `main` exits with 0 exactly when the run succeeded; otherwise it
      exits with 1 after one more close request, sent exactly when the
      socket path still exists. */
  lemma MainOutcome(w: World, vars: map<string, string>, cwd: Option<string>, tools: Tools)
    ensures var config := ParseConfig(vars, cwd);
            var s := RunSpec(w, config, tools);
            var m := MainSpec(w, vars, cwd, tools);
            && (m.result == 0 <==> s.result.Ok?)
            && (m.result == 1 <==> s.result.Err?)
            && (s.result.Ok? ==> m.world == s.world)
            && (s.result.Err? ==>
                  && Extends(s.world, m.world) && m.world.files == s.world.files
                  && Added(s.world, m.world)
                     == (if config.dbgSock in s.world.files then [Call(CloseRequest, AnswerAt(s.world, config.dbgSock, 0))]
                         else []))
  {
    var config := ParseConfig(vars, cwd);
    CloseOutcome(RunSpec(w, config, tools).world, config);
  }
}
