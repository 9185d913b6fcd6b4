/** The command layer of examples/rust/debug_with_dbg.rs: the requests
    the driver sends, `response_ok`, the retry executor
    `run_command_retry`, and the two polling loops `wait_for_status` and
    `ensure_paused`.

    Each loop is a method over the host (`Transport.Env`) proved equal to
    a function over `World`; the properties the driver relies on are
    lemmas about those functions. The attempt and poll limits (3 and 60
    in the source) are parameters. */
module Commands {
  import opened Wrappers
  import opened Text
  import opened Transport
  import opened Config

  const CommandRetryAttempts: nat := 3
  const PauseWaitPolls: nat := 60

  const StatusRequest: string := "{\"cmd\":\"status\"}"
  const PauseRequest: string := "{\"cmd\":\"pause\"}"
  const FramesRequest: string := "{\"cmd\":\"q\",\"args\":\"SELECT function, file, line FROM frames LIMIT 5\"}"
  const ThreadsRequest: string := "{\"cmd\":\"q\",\"args\":\"SELECT id, name FROM threads LIMIT 5\"}"
  const StepRequest: string := "{\"cmd\":\"n\"}"
  const TraceRequest: string := "{\"cmd\":\"trace\",\"args\":\"5\"}"
  const CloseRequest: string := "{\"cmd\":\"close\"}"

  const OkMarker: string := "\"ok\":true"
  const ConnectedMarker: string := "\"connected\":true"
  const PausedMarker: string := "\"status\":\"paused\""
  const RunningMarker: string := "\"status\":\"running\""
  const NoRowsMarker: string := "\"rows\":[]"

  /** The errors of the driver, one per kind of message it produces. */
  datatype DriverError =
    | TargetNotFound(path: string)
    | RustcNotRun
    | RustcFailed(stderr: string)
    | CliMissing(path: string)
    | CliNotRun
    | DaemonStartFailed(stderr: string)
    | SocketFailed(cause: TransportError)
    | RetryExhausted(command: string, lastResponse: string)
    | StatusTimeout
    | PauseTimeout
    | NoThreads

  /** A driver step: its result and the world after it. */
  type Step<T> = Effect<Result<T, DriverError>>

  /** `response_ok`: the response holds `"ok":true` somewhere. */
  function ResponseOk(response: string): bool
  {
    Contains(response, OkMarker)
  }

  /** A response is ok exactly when `"ok":true` occurs in it. */
  lemma ResponseOkIff(response: string)
    ensures ResponseOk(response) <==> exists i :: OccursAt(response, OkMarker, i)
  {
    ContainsIff(response, OkMarker);
  }

  // ---------------------------------------------------------------------
  // run_command_retry
  // ---------------------------------------------------------------------

  /** The retry loop with `left` attempts still to make, `last` being the
      last not-ok response so far; a sleep follows every attempt but the
      final one. */
  function RetryFrom(w: World, socket: string, name: string, request: string,
                     left: nat, last: string): Step<string>
    decreases left
  {
    if left == 0 then Effect(Err(RetryExhausted(name, last)), w)
    else
      var sent := Send(w, socket, request);
      match sent.result
      case Err(e) => Effect(Err(SocketFailed(e)), sent.world)
      case Ok(response) =>
        if ResponseOk(response) then Effect(Ok(response), sent.world)
        else
          var next := if left > 1 then Sleep(sent.world) else sent.world;
          RetryFrom(next, socket, name, request, left - 1, response)
  }

  /** `run_command_retry` as a function of the world. */
  function Retry(w: World, socket: string, name: string, request: string, attempts: nat): Step<string>
  {
    RetryFrom(w, socket, name, request, attempts, "")
  }

  /** `run_command_retry`: up to `attempts` exchanges, sleeping between
      two of them; the first ok response is the result, a transport error
      ends the loop at once. */
  method RunCommandRetry(env: Env, config: RunConfig, name: string, request: string, attempts: nat)
    returns (r: Result<string, DriverError>)
    modifies env
    ensures Effect(r, env.State()) == Retry(old(env.State()), config.dbgSock, name, request, attempts)
  {
    ghost var w0 := env.State();
    ghost var left := attempts;
    var lastError := "";
    for attempt := 1 to attempts + 1
      invariant left == attempts + 1 - attempt
      invariant Retry(w0, config.dbgSock, name, request, attempts)
             == RetryFrom(env.State(), config.dbgSock, name, request, left, lastError)
    {
      var response := env.SendCommand(config.dbgSock, request);
      if response.Err? {
        return Err(SocketFailed(response.error));
      }
      if ResponseOk(response.value) {
        return Ok(response.value);
      }
      lastError := response.value;
      if attempt < attempts {
        env.SleepInterval();
      }
      left := left - 1;
    }
    r := Err(RetryExhausted(name, lastError));
  }

  // ---------------------------------------------------------------------
  // wait_for_status
  // ---------------------------------------------------------------------

  /** A status response that ends `wait_for_status` with success. */
  predicate IsConnected(response: string)
  {
    ResponseOk(response) && Contains(response, ConnectedMarker)
  }

  /** The status loop with `left` polls still to make. */
  function WaitFrom(w: World, socket: string, left: nat): Step<string>
    decreases left
  {
    if left == 0 then Effect(Err(StatusTimeout), w)
    else
      var sent := Send(w, socket, StatusRequest);
      match sent.result
      case Err(e) => Effect(Err(SocketFailed(e)), sent.world)
      case Ok(response) =>
        if IsConnected(response) then Effect(Ok(response), sent.world)
        else WaitFrom(Sleep(sent.world), socket, left - 1)
  }

  /** `wait_for_status` as a function of the world. */
  function Wait(w: World, socket: string, polls: nat): Step<string>
  {
    WaitFrom(w, socket, polls)
  }

  /** A status query that fails ends the status loop with that failure. */
  lemma WaitStatusFails(w: World, socket: string, left: nat, e: TransportError, w1: World)
    requires left >= 1 && Send(w, socket, StatusRequest) == Effect(Err(e), w1)
    ensures WaitFrom(w, socket, left) == Effect(Err(SocketFailed(e)), w1)
  {
  }

  /** An ok status showing a connection ends the status loop with that
      response. */
  lemma WaitSeen(w: World, socket: string, left: nat, response: string, w1: World)
    requires left >= 1 && Send(w, socket, StatusRequest) == Effect(Ok(response), w1)
    requires IsConnected(response)
    ensures WaitFrom(w, socket, left) == Effect(Ok(response), w1)
  {
  }

  /** Any other status is followed by a sleep and the loop with one poll
      fewer. */
  lemma WaitNotYet(w: World, socket: string, left: nat, response: string, w1: World)
    requires left >= 1 && Send(w, socket, StatusRequest) == Effect(Ok(response), w1)
    requires !IsConnected(response)
    ensures WaitFrom(w, socket, left) == WaitFrom(Sleep(w1), socket, left - 1)
  {
  }

  /** One poll of `wait_for_status`. Either it ends the loop (`done`)
      with the loop's result, or the loop goes on, after a sleep, with one
      poll fewer. */
  method WaitPoll(env: Env, config: RunConfig, ghost left: nat) returns (done: bool, r: Result<string, DriverError>)
    requires left >= 1
    modifies env
    ensures done ==> Effect(r, env.State()) == WaitFrom(old(env.State()), config.dbgSock, left)
    ensures !done ==> WaitFrom(old(env.State()), config.dbgSock, left)
                      == WaitFrom(Sleep(env.State()), config.dbgSock, left - 1)
  {
    ghost var w := env.State();
    var response := env.SendCommand(config.dbgSock, StatusRequest);
    if response.Err? {
      WaitStatusFails(w, config.dbgSock, left, response.error, env.State());
      return true, Err(SocketFailed(response.error));
    }
    if IsConnected(response.value) {
      WaitSeen(w, config.dbgSock, left, response.value, env.State());
      return true, Ok(response.value);
    }
    WaitNotYet(w, config.dbgSock, left, response.value, env.State());
    return false, Ok(response.value);
  }

  /** `wait_for_status`: up to `polls` status queries, each unsuccessful
      one followed by a sleep. */
  method WaitForStatus(env: Env, config: RunConfig, polls: nat) returns (r: Result<string, DriverError>)
    modifies env
    ensures Effect(r, env.State()) == Wait(old(env.State()), config.dbgSock, polls)
  {
    ghost var spec := Wait(env.State(), config.dbgSock, polls);
    ghost var left := polls;
    for attempt := 1 to polls + 1
      invariant left == polls + 1 - attempt
      invariant spec == WaitFrom(env.State(), config.dbgSock, left)
    {
      var done, result := WaitPoll(env, config, left);
      if done {
        return result;
      }
      env.SleepInterval();
      left := left - 1;
    }
    r := Err(StatusTimeout);
  }

  // ---------------------------------------------------------------------
  // ensure_paused
  // ---------------------------------------------------------------------

  /** A status response that ends `ensure_paused` with success. */
  predicate ShowsPaused(status: string)
  {
    ResponseOk(status) && Contains(status, PausedMarker)
  }

  /** A status response after which `ensure_paused` sends a pause. */
  predicate ShowsRunning(status: string)
  {
    ResponseOk(status) && Contains(status, RunningMarker)
  }

  /** The pause loop with `left` polls still to make. */
  function PausedFrom(w: World, socket: string, left: nat): Step<()>
    decreases left
  {
    if left == 0 then Effect(Err(PauseTimeout), w)
    else
      var sent := Send(w, socket, StatusRequest);
      match sent.result
      case Err(e) => Effect(Err(SocketFailed(e)), sent.world)
      case Ok(status) =>
        if ShowsPaused(status) then Effect(Ok(()), sent.world)
        else if ShowsRunning(status) then
          var paused := Send(sent.world, socket, PauseRequest);
          match paused.result
          case Err(e) => Effect(Err(SocketFailed(e)), paused.world)
          case Ok(_) => PausedFrom(Sleep(paused.world), socket, left - 1)
        else PausedFrom(Sleep(sent.world), socket, left - 1)
  }

  /** A status query that fails ends the pause loop with that failure. */
  lemma PausedStatusFails(w: World, socket: string, left: nat, e: TransportError, w1: World)
    requires left >= 1 && Send(w, socket, StatusRequest) == Effect(Err(e), w1)
    ensures PausedFrom(w, socket, left) == Effect(Err(SocketFailed(e)), w1)
  {
  }

  /** A paused status ends the pause loop with success. */
  lemma PausedSeen(w: World, socket: string, left: nat, status: string, w1: World)
    requires left >= 1 && Send(w, socket, StatusRequest) == Effect(Ok(status), w1)
    requires ShowsPaused(status)
    ensures PausedFrom(w, socket, left) == Effect(Ok(()), w1)
  {
  }

  /** A pause request that fails ends the pause loop with that failure. */
  lemma PausedPauseFails(w: World, socket: string, left: nat, status: string, w1: World,
                         e: TransportError, w2: World)
    requires left >= 1 && Send(w, socket, StatusRequest) == Effect(Ok(status), w1)
    requires !ShowsPaused(status) && ShowsRunning(status)
    requires Send(w1, socket, PauseRequest) == Effect(Err(e), w2)
    ensures PausedFrom(w, socket, left) == Effect(Err(SocketFailed(e)), w2)
  {
  }

  /** A running status whose pause request got through is followed by a
      sleep and the loop with one poll fewer. */
  lemma PausedAfterPause(w: World, socket: string, left: nat, status: string, w1: World,
                         ack: string, w2: World)
    requires left >= 1 && Send(w, socket, StatusRequest) == Effect(Ok(status), w1)
    requires !ShowsPaused(status) && ShowsRunning(status)
    requires Send(w1, socket, PauseRequest) == Effect(Ok(ack), w2)
    ensures PausedFrom(w, socket, left) == PausedFrom(Sleep(w2), socket, left - 1)
  {
  }

  /** Any other status is followed by a sleep and the loop with one poll
      fewer. */
  lemma PausedOther(w: World, socket: string, left: nat, status: string, w1: World)
    requires left >= 1 && Send(w, socket, StatusRequest) == Effect(Ok(status), w1)
    requires !ShowsPaused(status) && !ShowsRunning(status)
    ensures PausedFrom(w, socket, left) == PausedFrom(Sleep(w1), socket, left - 1)
  {
  }

  /** `ensure_paused` as a function of the world. */
  function EnsurePausedSpec(w: World, socket: string, polls: nat): Step<()>
  {
    PausedFrom(w, socket, polls)
  }

  /** One poll of `ensure_paused`: a status query, and a pause request
      when the session runs. Either it ends the loop (`done`) with the
      loop's result, or the loop goes on, after a sleep, with one poll
      fewer. */
  method PausePoll(env: Env, config: RunConfig, ghost left: nat) returns (done: bool, r: Result<(), DriverError>)
    requires left >= 1
    modifies env
    ensures done ==> Effect(r, env.State()) == PausedFrom(old(env.State()), config.dbgSock, left)
    ensures !done ==> PausedFrom(old(env.State()), config.dbgSock, left)
                      == PausedFrom(Sleep(env.State()), config.dbgSock, left - 1)
  {
    ghost var w := env.State();
    var status := env.SendCommand(config.dbgSock, StatusRequest);
    ghost var w1 := env.State();
    if status.Err? {
      PausedStatusFails(w, config.dbgSock, left, status.error, w1);
      return true, Err(SocketFailed(status.error));
    }
    if ShowsPaused(status.value) {
      PausedSeen(w, config.dbgSock, left, status.value, w1);
      return true, Ok(());
    }
    if ShowsRunning(status.value) {
      var pauseResponse := env.SendCommand(config.dbgSock, PauseRequest);
      if pauseResponse.Err? {
        PausedPauseFails(w, config.dbgSock, left, status.value, w1, pauseResponse.error, env.State());
        return true, Err(SocketFailed(pauseResponse.error));
      }
      PausedAfterPause(w, config.dbgSock, left, status.value, w1, pauseResponse.value, env.State());
    } else {
      PausedOther(w, config.dbgSock, left, status.value, w1);
    }
    return false, Ok(());
  }

  /** `ensure_paused`: up to `polls` status queries; a running session is
      sent a pause before the next query, whose reply is not inspected. */
  method EnsurePaused(env: Env, config: RunConfig, polls: nat) returns (r: Result<(), DriverError>)
    modifies env
    ensures Effect(r, env.State()) == EnsurePausedSpec(old(env.State()), config.dbgSock, polls)
  {
    ghost var spec := EnsurePausedSpec(env.State(), config.dbgSock, polls);
    ghost var left := polls;
    for attempt := 1 to polls + 1
      invariant left == polls + 1 - attempt
      invariant spec == PausedFrom(env.State(), config.dbgSock, left)
    {
      var done, result := PausePoll(env, config, left);
      if done {
        return result;
      }
      env.SleepInterval();
      left := left - 1;
    }
    r := Err(PauseTimeout);
  }
}
