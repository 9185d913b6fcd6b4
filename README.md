# dbg Rust self-check driver, modelled in Dafny

This project models the Rust self-check driver of the `dbg` debugger,
`examples/rust/debug_with_dbg.rs`, and the two small programs it debugs,
`examples/rust/target.rs` and `examples/rust/buggy.rs`. It proves what the
driver does against a scripted daemon.

The driver does the following, in order:

1. It resolves a `RunConfig` from the environment.
2. It removes a stale socket and events database and closes a stale daemon.
3. It compiles the target with `rustc -g`.
4. It checks the daemon with the `node` CLI.
5. It sends a fixed sequence of one-line JSON commands over a Unix socket:
   attach, wait for `"connected":true`, query frames, query threads, wait
   until paused (pausing a running session), step over, wait again, trace,
   close.

Three loops carry out the socket commands:

- `run_command_retry` makes up to three attempts and sleeps only between
  attempts.
- `wait_for_status` and `ensure_paused` poll up to sixty times and sleep
  after every unsuccessful poll.

A transport failure ends any of them at once.

How the model is built:

- **The host** (`transport.dfy`) is a `World`:
  - a script of daemon replies, one per connection;
  - a set of existing paths, with some of them locked;
  - a trace of every exchange (request and answer) and every sleep.

  `Transport.Env` is a class over that state. Its methods are the host
  calls: send a command, sleep, remove a file, create a file.
- **`send_socket_command`** is `Transport.Send`. It writes the request and
  one line feed, reads the first line of the reply and trims it. It fails
  with one error per failing I/O step. A blank line and a read timeout are
  errors of their own.
- **Each driver loop** is a method with the source's `for` loop. The method
  is proved equal to a recursive function over `World` (`Commands.Retry`,
  `Commands.Wait`, `Commands.EnsurePausedSpec`). The properties the driver
  relies on are lemmas about those functions:
  - closed forms (how many exchanges, which answer decides);
  - call and sleep counts;
  - the shape of the `ensure_paused` trace, given as a grammar,
    `PauseProperties.PauseLog`.
- **`json_escape`** is proved to round-trip through a decoder for JSON
  string literals, following section 7 of RFC 8259.
- **`run`** is the setup (cleanup, compile, daemon), then the nine socket
  steps of `Session.SessionPlan`, up to the first failure. The lemmas about
  it state:
  - the order of the commands;
  - that a failure stops every later command;
  - that an empty threads result ends the run before any pause or step.
- **The target programs** model `i64` arithmetic explicitly:
  - a debug-build overflow panic in `compute_total`;
  - Rust's division, which rounds toward zero and panics on a zero count.

  A panic is the result `None`.

## Model

| member | source | states |
|---|---|---|
| Commands.ResponseOkIff | examples/rust/debug_with_dbg.rs:265-267 | `response_ok` holds exactly when `"ok":true` occurs somewhere in the response |
| Config.Join | examples/rust/debug_with_dbg.rs:83-87 | joining a relative path keeps the base as prefix and the relative path as suffix, with one `/` between them when the base does not end with one, and nothing between them when it is empty or does end with one |
| Config.ParseConfig | examples/rust/debug_with_dbg.rs:82-101 | the workspace root is the current directory, or `.` when it cannot be read; each of the four variables that is set gives its field; with no `RUST_DEBUG_TARGET` the source is `target.rs` under the root |
| Config.ParseConfigDefaults | examples/rust/debug_with_dbg.rs:82-101 | with an empty environment and no current directory, every field takes its default: `/tmp/dbg-rust.sock`, `/tmp/dbg-rust-events.db`, `./examples/rust/target.rs` and `/tmp/dbg-rust-target` |
| Config.ParseConfigOverride | examples/rust/debug_with_dbg.rs:82-101 | setting one variable changes exactly the field it names and nothing else; any other variable changes nothing |
| Transport.Frame | examples/rust/debug_with_dbg.rs:191-193 | the frame of a request is the request followed by exactly one line feed |
| Transport.Written | examples/rust/debug_with_dbg.rs:181-193 | an exchange writes the request's frame exactly when the connection and both timeouts succeeded, so whenever it returns a response, times out or fails on the write or read; otherwise it writes nothing |
| Transport.ClassifyOutcome | examples/rust/debug_with_dbg.rs:195-210 | a read error is a timeout exactly when its kind is TimedOut or WouldBlock; a reply is "closed without a response" exactly when its first line is blank; a success is the trimmed first line of the reply, non-empty, with no line feed, standing in the reply after its leading white space; a fault at connect, at either timeout or at the write is the error of that step with its kind, and any other read error is `ReadFailed` |
| Transport.TrimmedLineIsSingle | examples/rust/debug_with_dbg.rs:195-210 | the trimmed first line holds no line feed and occurs in the reply at the end of the leading white space |
| Transport.ClassifyPlainAnswer | examples/rust/debug_with_dbg.rs:206-210 | a one-line reply without surrounding white space is returned unchanged |
| Transport.Send | examples/rust/debug_with_dbg.rs:181-211 | one exchange: its answer is the next scripted reply, classified (or a connect failure when the socket path does not exist); it is appended to the trace with its request; files are unchanged |
| Transport.SendPlain | examples/rust/debug_with_dbg.rs:181-211 | an exchange whose next reply is plain returns that reply and uses it up |
| Transport.AnswerAfterSend | examples/rust/debug_with_dbg.rs:181-211 | every exchange opens a fresh connection: after one exchange, the i-th answer to come is the one that was the (i+1)-th before |
| Transport.RemoveFile | examples/rust/debug_with_dbg.rs:104-107 | removal succeeds exactly when the path exists and is not locked, and only then removes it |
| Transport.Env.SendCommand | examples/rust/debug_with_dbg.rs:181-211 | the host's exchange returns `Send`'s answer, leaves `Send`'s world, and has written `Written` of the reply it met: the request's frame once the connection and timeouts succeed |
| Transport.Env.SleepInterval | examples/rust/debug_with_dbg.rs:174 | a sleep only appends a sleep event to the trace; the bytes of the last exchange are kept |
| Transport.Env.Remove | examples/rust/debug_with_dbg.rs:104-107 | the host's removal has `RemoveFile`'s result and world, and keeps the bytes of the last exchange |
| Transport.Env.CreateFile | examples/rust/debug_with_dbg.rs:123-128 | the written path exists afterwards, and nothing else changes |
| Text.ContainsIff | examples/rust/debug_with_dbg.rs:265-267 | `str::contains` holds exactly when the pattern occurs at some index |
| Text.TrimStartSpec | examples/rust/debug_with_dbg.rs:206-210 | `trim_start` removes exactly the leading white space: the result is a suffix, everything dropped is white space, and the result does not start with white space |
| Text.TrimEndSpec | examples/rust/debug_with_dbg.rs:206-210 | `trim_end` removes exactly the trailing white space: the result is a prefix, everything dropped is white space, and the result does not end with white space |
| Text.TrimSpec | examples/rust/debug_with_dbg.rs:206-210 | `trim` gives an infix that is empty exactly when the input is blank, and otherwise starts and ends with non-white-space |
| Text.ReadLineSpec | examples/rust/debug_with_dbg.rs:195-198 | `read_line` returns a prefix of the data that holds no line feed except possibly its last character; it ends in a line feed exactly when the data holds one |
| JsonString.EscapeChar | examples/rust/debug_with_dbg.rs:308-319 | every character's escape is non-empty and holds no control character |
| JsonString.Escape | examples/rust/debug_with_dbg.rs:305-322 | the escaped string is at least as long as the input and holds no control character (so no line break) |
| JsonString.EscapeConcat | examples/rust/debug_with_dbg.rs:305-322 | escaping works character by character: it distributes over concatenation |
| JsonString.JsonEscape | examples/rust/debug_with_dbg.rs:305-322 | the loop that pushes each character's escape into `out` returns the escaped input |
| JsonString.EscapeSnoc | examples/rust/debug_with_dbg.rs:307-320 | appending a character to the input appends its escape to the output, which is the loop invariant of `json_escape` |
| JsonString.Hex4 | examples/rust/debug_with_dbg.rs:314-317 | the zero-padded four-digit hex format gives exactly four characters, none of them a control character |
| JsonString.HexDigitValue | examples/rust/debug_with_dbg.rs:316 | a lower-case hex digit reads back as its value |
| JsonString.Hex4RoundTrip | examples/rust/debug_with_dbg.rs:314-317 | the four hex digits of a code below 0x10000 read back as that code |
| JsonString.ParseEscapedChar | examples/rust/debug_with_dbg.rs:308-319 | a JSON string-literal decoder reads each character's escape back as that character |
| JsonString.EscapeRoundTrip | examples/rust/debug_with_dbg.rs:305-322 | decoding the escaped string followed by a closing quote gives back exactly the input and the text after the quote; so the output holds no unescaped quote or backslash |
| JsonString.JsonAttachLldb | examples/rust/debug_with_dbg.rs:298-303 | the attach request is the fixed prefix, then a string literal that decodes to the path, then `}`; it holds no line feed, so it is one request line |
| Commands.RunCommandRetry | examples/rust/debug_with_dbg.rs:159-179 | the retry loop's result and new host state are those of `Retry` with the given attempt count |
| Commands.WaitForStatus | examples/rust/debug_with_dbg.rs:227-242 | the polling loop's result and new host state are those of `Wait` with the given poll count |
| Commands.WaitPoll | examples/rust/debug_with_dbg.rs:229-235 | one iteration of `wait_for_status`: either it decides the result, as `WaitFrom` does, or it leaves a state from which `WaitFrom` with one poll fewer, after a sleep, gives the same outcome |
| Commands.WaitStatusFails | examples/rust/debug_with_dbg.rs:230 | a transport error on the status poll is the result at once |
| Commands.WaitSeen | examples/rust/debug_with_dbg.rs:232-234 | an ok status showing `"connected":true` is returned at once, with no sleep |
| Commands.WaitNotYet | examples/rust/debug_with_dbg.rs:232-235 | any other status, a not-ok one included, leads to a sleep and another poll |
| Commands.PausePoll | examples/rust/debug_with_dbg.rs:246-256 | one iteration of `ensure_paused`: either it decides the result, as `PausedFrom` does, or it leaves a state from which `PausedFrom` with one poll fewer, after a sleep, gives the same outcome |
| Commands.EnsurePaused | examples/rust/debug_with_dbg.rs:244-263 | the pause loop's result and new host state are those of `EnsurePausedSpec` with the given poll count |
| Commands.PausedStatusFails | examples/rust/debug_with_dbg.rs:247 | a transport error on the status poll is the result at once |
| Commands.PausedSeen | examples/rust/debug_with_dbg.rs:249-251 | an ok and paused status returns Ok at once, with no pause and no sleep |
| Commands.PausedPauseFails | examples/rust/debug_with_dbg.rs:252-253 | a transport error on the pause request is the result at once |
| Commands.PausedAfterPause | examples/rust/debug_with_dbg.rs:252-256 | after an ok running status and a pause whose reply is ignored, the loop sleeps and polls again with one poll fewer |
| Commands.PausedOther | examples/rust/debug_with_dbg.rs:249-256 | any other status, a not-ok one included, leads only to a sleep and another poll |
| RetryProperties.RetryUses | examples/rust/debug_with_dbg.rs:164-170 | the number of attempts used is between 1 and the limit |
| RetryProperties.RetryFromClosedForm | examples/rust/debug_with_dbg.rs:164-178 | the recursive retry equals its closed form: the attempts run until the first transport error or ok response, or until the limit |
| RetryProperties.RetryStopsAtOnce | examples/rust/debug_with_dbg.rs:165-170 | a first answer that is a transport error or ok, or a last attempt, ends the loop after one exchange |
| RetryProperties.RetryContinues | examples/rust/debug_with_dbg.rs:172-175 | a not-ok response with attempts left becomes the last error, and the loop sleeps and tries again |
| RetryProperties.RetryClosedForm | examples/rust/debug_with_dbg.rs:159-179 | with k attempts used: every earlier answer was an ok transport call with a response lacking `"ok":true`; fewer than the limit means the k-th answer stopped the loop; the result is that answer's verdict; the trace is k exchanges of the request with sleeps between them |
| RetryProperties.RetryNoAttempts | examples/rust/debug_with_dbg.rs:163-178 | with no attempts the loop fails with an empty last response and changes nothing |
| RetryProperties.RetryFirstOk | examples/rust/debug_with_dbg.rs:168-170 | an ok first response is returned after one exchange and no sleep |
| RetryProperties.RetryCounts | examples/rust/debug_with_dbg.rs:159-179 | with k attempts used, the request is sent k times, nothing else is sent, there are k-1 sleeps, and the files are unchanged |
| RetryProperties.RetryAllNotOk | examples/rust/debug_with_dbg.rs:172-178 | when every response lacks `"ok":true`, all attempts are made with one sleep fewer, and the error carries the last response |
| RetryProperties.RetryTransportErrorStops | examples/rust/debug_with_dbg.rs:165 | a transport error at attempt i+1 is the result, after exactly i+1 exchanges and i sleeps |
| RetryProperties.RetryRequests | examples/rust/debug_with_dbg.rs:159-179 | for any limit, the loop sends only its request, at most the limit many times, and at least once when it succeeds |
| WaitProperties.WaitUses | examples/rust/debug_with_dbg.rs:229-234 | the number of polls used is between 1 and the limit |
| WaitProperties.WaitFromClosedForm | examples/rust/debug_with_dbg.rs:229-241 | the recursive wait equals its closed form: polls until the first transport error or ok connected status, or until the limit |
| WaitProperties.WaitStopsAtOnce | examples/rust/debug_with_dbg.rs:230-234 | a transport error or ok connected status on the first poll, or a last poll, ends the loop after one exchange |
| WaitProperties.WaitContinues | examples/rust/debug_with_dbg.rs:232-235 | any other status leads to a sleep and another poll |
| WaitProperties.WaitClosedForm | examples/rust/debug_with_dbg.rs:227-242 | with k polls used, every earlier answer was ok with no connected status, and a k-th answer that did not stop the loop means the limit was reached |
| WaitProperties.WaitNoPolls | examples/rust/debug_with_dbg.rs:229-241 | with no polls the wait times out and changes nothing |
| WaitProperties.WaitClosedParts | examples/rust/debug_with_dbg.rs:227-242 | the result is the verdict of the deciding answer, and the world is k polls with sleeps between them, plus a final sleep unless that answer stopped the loop |
| WaitProperties.WaitCounts | examples/rust/debug_with_dbg.rs:227-242 | with k polls used, only status is sent, k times, with k-1 sleeps when the loop stopped on an answer and k when it ran out |
| WaitProperties.WaitStopsAt | examples/rust/debug_with_dbg.rs:230-234 | the first ok connected status, or the first transport error, at poll i+1 is the result after exactly i+1 polls and i sleeps, with no further calls |
| WaitProperties.WaitTimesOut | examples/rust/debug_with_dbg.rs:235-241 | when no poll answers ok and connected, all polls are made, each followed by a sleep, and the result is a timeout |
| WaitProperties.WaitBounded | examples/rust/debug_with_dbg.rs:227-242 | for any limit, the wait sends only status, at most the limit many times, with no more sleeps than polls |
| PauseProperties.PausedFromLog | examples/rust/debug_with_dbg.rs:244-263 | every trace `ensure_paused` leaves is a word of the pause grammar: per poll a status, then a pause if it was ok and running but not paused, then a sleep, ending in the result's last exchange |
| PauseProperties.LogCounts | examples/rust/debug_with_dbg.rs:246-262 | in a pause-grammar trace: at most the limit many status polls; no more pauses than polls; a timeout exactly when there is one sleep per poll of the limit; otherwise one sleep fewer than polls |
| PauseProperties.LogShape | examples/rust/debug_with_dbg.rs:246-262 | a pause-grammar trace holds only status and pause exchanges, a pause right after every ok running status and nowhere else, a sleep right after every poll that continues and nowhere else; it ends as the result says and starts with a status poll |
| PauseProperties.LogResult | examples/rust/debug_with_dbg.rs:244-263 | `ensure_paused` ends in Ok, in the pause timeout, or in a transport error, and in nothing else |
| PauseProperties.EnsurePausedCounts | examples/rust/debug_with_dbg.rs:244-263 | `ensure_paused` makes at most the limit many status polls and no more pauses than polls; it times out exactly when it slept once per poll of the limit; otherwise it slept once fewer than it polled; files are unchanged |
| PauseProperties.EnsurePausedShape | examples/rust/debug_with_dbg.rs:244-263 | `ensure_paused` sends only status and pause; it sends a pause right after every ok running status and nowhere else, and sleeps right after every poll that continues and nowhere else; its first exchange is a status poll |
| PauseProperties.RunningRound | examples/rust/debug_with_dbg.rs:247-256 | a plain running status and a plain pause acknowledgement use up two replies, log status, pause and sleep, and poll again with one poll fewer |
| PauseProperties.PausedRound | examples/rust/debug_with_dbg.rs:247-251 | a paused status uses up one reply and returns Ok with no pause and no sleep |
| PauseProperties.TwoPausesEffect | examples/rust/debug_with_dbg.rs:244-263 | with at least three polls and the plain replies running, ack, running, ack, paused, the loop returns Ok after status, pause, sleep, status, pause, sleep, status |
| PauseProperties.TwoPausesThreePolls | examples/rust/debug_with_dbg.rs:244-263 | for the script [running, running, paused] there are exactly 3 status polls, 2 pauses and 2 sleeps, and the result is Ok |
| PauseProperties.TwoPauseCounts | examples/rust/debug_with_dbg.rs:246-256 | that trace has 3 status calls, 2 pause calls and 2 sleeps |
| PauseProperties.TwoPausesThreePollsScripted | examples/rust/debug_with_dbg.rs:244-263 | with the limit of 60 and concrete daemon replies (running, paused and a pause acknowledgement), `ensure_paused` succeeds after 3 polls and 2 pauses |
| Session.EventsDbPaths | examples/rust/debug_with_dbg.rs:105-107 | the database paths are the events database and its `-wal` and `-shm` side files |
| Session.CloseSession | examples/rust/debug_with_dbg.rs:213-225 | the close's result and new host state are those of `CloseSpec` |
| Session.CleanupOldState | examples/rust/debug_with_dbg.rs:103-113 | the cleanup loop's result and new host state are those of `CleanupSpec` |
| Session.CompileTarget | examples/rust/debug_with_dbg.rs:115-140 | the build's result and new host state are those of `CompileSpec` |
| Session.EnsureDaemonRunning | examples/rust/debug_with_dbg.rs:142-157 | the daemon check's result and new host state are those of `DaemonSpec` |
| Session.QueryThreads | examples/rust/debug_with_dbg.rs:60-67 | the threads query with its empty-rows check has the effect of the `Threads` step |
| Session.RunStage | examples/rust/debug_with_dbg.rs:46-76 | each socket step of `run`, done by its driver function, has the effect of `StageSpec` |
| Session.RunSession | examples/rust/debug_with_dbg.rs:46-76 | the socket steps of `run` are the plan's steps, carried out in order until one fails |
| Session.Run | examples/rust/debug_with_dbg.rs:40-80 | `run` has the effect of `RunSpec`: cleanup, build, daemon, then the plan, stopping at the first failure |
| Session.DebugMain | examples/rust/debug_with_dbg.rs:27-38 | `main` has the effect of `MainSpec` |
| RunProperties.RemoveAllRemoves | examples/rust/debug_with_dbg.rs:104-108 | removing a list of paths, ignoring failures, removes exactly the listed paths that are not locked |
| RunProperties.CloseOutcome | examples/rust/debug_with_dbg.rs:213-225 | with no socket path, `close_session` is Ok with no exchange; otherwise it makes exactly one close exchange, ignores the response, and fails exactly on a transport error |
| RunProperties.CleanupOutcome | examples/rust/debug_with_dbg.rs:103-113 | cleanup is always Ok; it removes exactly the socket and database paths that are not locked; it makes a close exchange only when the socket path survives because it is locked |
| RunProperties.CleanupTwice | examples/rust/debug_with_dbg.rs:103-113 | cleanup is idempotent on the files; a second cleanup changes nothing at all unless a locked socket makes it close again |
| RunProperties.CompileOutcome | examples/rust/debug_with_dbg.rs:115-140 | the build succeeds exactly when the source exists and `rustc` exits with success; then the binary exists, which the model assumes of `rustc`; a failure changes nothing; a missing source and a failing `rustc` have their own errors |
| RunProperties.DaemonOutcome | examples/rust/debug_with_dbg.rs:142-157 | the daemon check succeeds exactly when the CLI artifact exists and `node ... status` exits with success; then the socket exists; a failure changes nothing; a missing artifact has its own error, naming `<root>/packages/cli/dist/cli.js` |
| RunProperties.SetupFailureEndsRun | examples/rust/debug_with_dbg.rs:40-44 | a failing build or daemon check ends `run` before any socket command after the cleanup |
| RunProperties.SetupFailure | examples/rust/debug_with_dbg.rs:40-44 | the setup fails only with a build or daemon error |
| RunProperties.SetupSocket | examples/rust/debug_with_dbg.rs:142-157 | after a successful setup the socket path exists |
| RunProperties.RetriedStage | examples/rust/debug_with_dbg.rs:159-179 | a retried command sends its request one to three times and nothing else, and fails only by a transport error or by running out of attempts under its own name |
| RunProperties.ThreadsStage | examples/rust/debug_with_dbg.rs:60-67 | the threads query sends only its request, one to three times, and fails only by transport, by exhaustion, or by showing no threads |
| RunProperties.ConnectedStage | examples/rust/debug_with_dbg.rs:227-242 | a wait sends only status, one to sixty times, and fails only by transport or by the status timeout |
| RunProperties.PausedStage | examples/rust/debug_with_dbg.rs:244-263 | the pause wait sends only status and pause, starting with status, with at most sixty polls, and fails only by transport or by the pause timeout |
| RunProperties.CloseStage | examples/rust/debug_with_dbg.rs:213-225 | the final close, with the socket present, sends exactly one close request and fails only by transport |
| RunProperties.StageEffect | examples/rust/debug_with_dbg.rs:46-76 | every socket step keeps the files, leaves a trace of its own kind and fails only in its own ways |
| RunProperties.RunStagesLog | examples/rust/debug_with_dbg.rs:46-76 | carrying out steps in order leaves the concatenation of one trace piece per step carried out; the run stops only at a failure, which is a failure of the last step carried out; success means every step ran |
| RunProperties.PlanOrder | examples/rust/debug_with_dbg.rs:46-76 | the nine steps open with attach, status, frames, threads, status, `n`, status, trace and close |
| RunProperties.RunOrder | examples/rust/debug_with_dbg.rs:40-80 | a successful run carries out all nine steps; the trace after setup is their nine pieces in order, and piece i opens with the i-th command of that order |
| RunProperties.RunFailure | examples/rust/debug_with_dbg.rs:40-80 | a run that fails after setup has carried out 1 to 9 steps; the trace is their pieces, and the error is a failure of the last of them, so no later command was sent |
| RunProperties.NoRowsStops | examples/rust/debug_with_dbg.rs:60-67 | a threads response that is ok and holds `"rows":[]` fails the run right after the query, whatever steps follow |
| RunProperties.RunNoThreads | examples/rust/debug_with_dbg.rs:60-69 | a run that ends with no threads has carried out exactly four steps and sent only attach, status, frames and threads: no pause and no `n` |
| RunProperties.MainOutcome | examples/rust/debug_with_dbg.rs:27-38 | `main` exits with 0 exactly when `run` succeeds, and then adds nothing; it exits with 1 exactly when `run` fails, and then makes one close exchange if the socket path still exists |
| Target.ComputeTotal | examples/rust/target.rs:1-7 | the loop returns the sum of the input (0 for an empty slice), and panics exactly when some running total leaves the `i64` range |
| Target.SumConcat | examples/rust/target.rs:1-7 | the sum of a concatenation is the sum of the sums |
| Target.SumBounds | examples/rust/target.rs:1-7 | a sum of n values between lo and hi lies between n·lo and n·hi |
| Target.SmallInputsFit | examples/rust/target.rs:1-7 | when n values are at most m in magnitude and n·m fits in `i64`, the loop cannot overflow |
| Target.TargetTotal | examples/rust/target.rs:9-11 | `[3, 7, 11, 13]` sums to 34 without overflow |
| Target.TargetMain | examples/rust/target.rs:9-13 | `main` computes the total 34 |
| Buggy.ComputeAverage | examples/rust/buggy.rs:1-4 | the division panics exactly on a zero count or on `i64::MIN / -1`; otherwise the remainder is smaller than the count in magnitude and has the sign of the total, so the quotient is rounded toward zero |
| Buggy.RustDivSpec | examples/rust/buggy.rs:3 | rounding toward zero leaves a remainder smaller than the divisor in magnitude, with the dividend's sign |
| Buggy.RustDivBound | examples/rust/buggy.rs:3 | the quotient of two `i64`s fits in an `i64`, except for `i64::MIN / -1` |
| Buggy.TruncatesTowardZero | examples/rust/buggy.rs:3 | Rust's `-7 / 2` is -3, where the Euclidean `/` gives -4 |
| Buggy.BuggyMainPanics | examples/rust/buggy.rs:6-15 | `main` sums its numbers to 60 without overflow, and its zero count violates the division's condition, so `compute_average` panics; with a count of three it would return 20 |

## Left out

- Real socket I/O is not modelled: the connection, the two socket
  timeouts of 20 s and 5 s, and the buffered read. A scripted reply per
  connection stands for the daemon, and a fault stands for the I/O step
  that fails. A script that is used up refuses connections.
- Sleeps are trace events. The 250 ms duration is not modelled.
- `rustc` and `node` are not run. Their outcome (not started, or exited
  with a status, stdout and stderr) is a parameter. The command lines and
  the environment `run_cli` passes to `node` are not modelled.
- A successful `node ... status` is assumed to leave a daemon listening
  on the socket path. The model adds that path to the existing files.
- A successful `rustc` is assumed to create the target binary. The model
  adds its path to the existing files.
- Only the bytes of the most recent exchange are kept, in
  `Transport.Env.written`. The trace records the request of every
  exchange but not the frame written for it.
- The file system is a set of existing paths with a subset that cannot be
  removed. `Path::exists` is membership. The I/O error kinds of a failed
  removal are NotFound and PermissionDenied only.
- The environment variables and the current directory are parameters of
  `parse_config`.
- Output is not modelled: every `println!`/`eprintln!`, the labels of
  the commands, the `verbose` flag of `close_session` (which only
  affects printing), and the stdout trimming of `ensure_daemon_running`
  (printed only).
- Error messages are constructors of `DriverError` and `TransportError`,
  not formatted strings. This leaves out the floating-point seconds in the
  two timeout messages and `to_string_lossy`/`from_utf8_lossy`. Strings
  are sequences of Unicode scalar values.
- `std::process::exit(1)` is the exit status that `DebugMain` returns.
- `_is_executable` is not modelled: nothing calls it.
- `Session.RunSession` carries out the nine socket calls of `run` as a
  loop over `Session.SessionPlan`, not as nine statements. The commands,
  their order and the early exit are the same.
- A panic in the target programs is the result `None`. Only the debug
  build's overflow check of `+=` is modelled, because `rustc -g` builds in
  debug.
- Two behaviours of the code worth noting:
  - For the replies running, running, paused, `ensure_paused` sends a
    pause after each running status, so it sends two pauses.
  - Of the two queries, only the threads query's rows are checked for
    emptiness.
