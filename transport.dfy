/** The socket command transport of examples/rust/debug_with_dbg.rs
    (`send_socket_command`) and the host around it.

    The daemon's end of the control socket is a script: one `Reply` per
    connection, consumed in order. The host's file system is a set of
    existing paths, some of which cannot be removed. Every exchange and
    every sleep is appended to a trace, so that what a driver did, and in
    which order, can be stated about the trace. */
module Transport {
  import opened Wrappers
  import opened Text

  /** The `std::io::ErrorKind`s the model distinguishes. */
  datatype ErrorKind = NotFound | PermissionDenied | ConnectionRefused | BrokenPipe | TimedOut | WouldBlock | Other

  /** The steps of one exchange that can fail, in the order they run. */
  datatype IoStage = Connect | SetReadTimeout | SetWriteTimeout | Write | Read

  /** What one connection to the daemon yields: the text it sends before
      the read returns, or an I/O error at one of the steps. */
  datatype Reply = Answer(data: string) | Fault(stage: IoStage, kind: ErrorKind)

  /** The ways `send_socket_command` fails, one per error message. */
  datatype TransportError =
    | ConnectFailed(socket: string, kind: ErrorKind)
    | ReadTimeoutSetupFailed(kind: ErrorKind)
    | WriteTimeoutSetupFailed(kind: ErrorKind)
    | WriteFailed(kind: ErrorKind)
    | ReadTimedOut(socket: string)
    | ReadFailed(kind: ErrorKind)
    | ClosedWithoutResponse

  /** The bytes written for a request: the request and one line feed. */
  function Frame(request: string): (f: string)
    ensures |f| == |request| + 1 && f[..|request|] == request && f[|request|] == '\n'
  {
    request + "\n"
  }

  /** The outcome of one exchange, given what the connection yields:
      each failing step has its own error, a read error is classified by
      its kind, and a reply is cut to its first line and trimmed. */
  function Classify(socket: string, reply: Reply): Result<string, TransportError>
  {
    match reply
    case Fault(Connect, kind) => Err(ConnectFailed(socket, kind))
    case Fault(SetReadTimeout, kind) => Err(ReadTimeoutSetupFailed(kind))
    case Fault(SetWriteTimeout, kind) => Err(WriteTimeoutSetupFailed(kind))
    case Fault(Write, kind) => Err(WriteFailed(kind))
    case Fault(Read, kind) =>
      if kind == TimedOut || kind == WouldBlock then Err(ReadTimedOut(socket)) else Err(ReadFailed(kind))
    case Answer(data) =>
      var line := ReadLine(data);
      if Trim(line) == [] then Err(ClosedWithoutResponse) else Ok(Trim(line))
  }

  /** What an exchange's outcome says about the reply. A read error is a
      timeout exactly when its kind is TimedOut or WouldBlock; the reply
      is an error exactly when its first line is blank; and otherwise the
      response is that line trimmed, which is never empty, never holds a
      line feed, and stands in the reply after the leading white space.
      A fault at any earlier step is the error of that step, with the
      kind it had. */
  lemma ClassifyOutcome(socket: string, reply: Reply)
    ensures var r := Classify(socket, reply);
      && (r == Err(ReadTimedOut(socket)) <==>
            reply == Fault(Read, TimedOut) || reply == Fault(Read, WouldBlock))
      && (r == Err(ClosedWithoutResponse) <==> reply.Answer? && Blank(ReadLine(reply.data)))
      && (r.Ok? ==> reply.Answer? && r.value != [] && '\n' !in r.value)
      && (r.Ok? ==> OccursAt(reply.data, r.value, |ReadLine(reply.data)| - |TrimStart(ReadLine(reply.data))|))
      && (r.Ok? ==> r.value == Trim(ReadLine(reply.data)))
      && (reply.Answer? ==> r.Ok? || r == Err(ClosedWithoutResponse))
      && (reply.Fault? ==>
            && r.Err?
            && (reply.stage == Connect <==> r.error == ConnectFailed(socket, reply.kind))
            && (reply.stage == SetReadTimeout <==> r.error == ReadTimeoutSetupFailed(reply.kind))
            && (reply.stage == SetWriteTimeout <==> r.error == WriteTimeoutSetupFailed(reply.kind))
            && (reply.stage == Write <==> r.error == WriteFailed(reply.kind)))
      && (r.Err? && r.error.ReadFailed? <==>
            reply.Fault? && reply.stage == Read && reply.kind != TimedOut && reply.kind != WouldBlock)
  {
    if reply.Answer? {
      TrimSpec(ReadLine(reply.data));
      TrimmedLineIsSingle(reply.data);
    }
  }

  /** The trimmed first line of a reply holds no line feed, and it sits
      inside the reply where the first line starts after its leading
      white space. */
  lemma TrimmedLineIsSingle(data: string)
    ensures '\n' !in Trim(ReadLine(data))
    ensures OccursAt(data, Trim(ReadLine(data)), |ReadLine(data)| - |TrimStart(ReadLine(data))|)
  {
    var line := ReadLine(data);
    ReadLineSpec(data);
    TrimSpec(line);
    NoLineFeedInTrimmed(line);
    InfixOfPrefix(data, line, Trim(line), |line| - |TrimStart(line)|);
  }

  /** A reply of one line, without a line feed and without white space at
      either end. */
  predicate PlainReply(data: string)
  {
    data != [] && '\n' !in data && !IsWhitespace(data[0]) && !IsWhitespace(data[|data| - 1])
  }

  /** A plain reply comes back as it was sent. */
  lemma ClassifyPlainAnswer(socket: string, data: string)
    requires PlainReply(data)
    ensures Classify(socket, Answer(data)) == Ok(data)
  {
    ReadLineSpec(data);
    assert ReadLine(data) == data;
    assert TrimStart(data) == data;
  }

  lemma NoLineFeedInTrimmed(line: string)
    requires forall k :: 0 <= k < |line| - 1 ==> line[k] != '\n'
    ensures '\n' !in Trim(line)
  {
    var r := Trim(line);
    var o := |line| - |TrimStart(line)|;
    TrimSpec(line);
    forall k | 0 <= k < |r| ensures r[k] != '\n' {
      if k < |r| - 1 {
        assert r[k] == line[o..o + |r|][k] == line[o + k];
      } else {
        assert !IsWhitespace(r[k]);
      }
    }
  }

  lemma InfixOfPrefix(data: string, line: string, r: string, o: int)
    requires |line| <= |data| && line == data[..|line|]
    requires OccursAt(line, r, o)
    ensures OccursAt(data, r, o)
  {
    assert data[o..o + |r|] == line[o..o + |r|];
  }

  /** Whether an exchange with this reply gets as far as `write_all`:
      the connection was made and both timeouts were set. */
  predicate ReachesWrite(reply: Reply)
  {
    reply.Answer? || reply.stage == Write || reply.stage == Read
  }

  /** The bytes an exchange hands to `write_all`: `Frame(request)` once
      the connection and both timeouts succeeded, nothing before that.
      Every exchange that returns a response, times out or fails on the
      write or the read has written the request's frame; one that fails
      earlier has written nothing. */
  function Written(socket: string, reply: Reply, request: string): (b: string)
    ensures var r := Classify(socket, reply);
      && (b != [] <==> !(r.Err? && (r.error.ConnectFailed? || r.error.ReadTimeoutSetupFailed? || r.error.WriteTimeoutSetupFailed?)))
      && (b != [] ==> b == Frame(request))
  {
    if ReachesWrite(reply) then Frame(request) else []
  }

  /** One entry of the trace: an exchange, with the request sent and the
      outcome, or a sleep of the poll interval. */
  datatype Event = Call(request: string, answer: Result<string, TransportError>) | Slept

  /** Everything the driver observes or changes outside itself. */
  datatype World = World(script: seq<Reply>, files: set<string>, locked: set<string>, trace: seq<Event>)

  /** The result of an operation together with the world after it. */
  datatype Effect<T> = Effect(result: T, world: World)

  /** The reply the daemon gives to the next connection: once the script
      is used up nothing listens on the socket any more. */
  function NextReply(script: seq<Reply>): Reply
  {
    if script == [] then Fault(Connect, ConnectionRefused) else script[0]
  }

  function RestOf(script: seq<Reply>): seq<Reply>
  {
    if script == [] then [] else script[1..]
  }

  /** The outcome of the `i`-th exchange from now on `socket`, if only
      exchanges happen in between: a socket path that does not exist
      refuses every connection, and otherwise the script answers. */
  function AnswerAt(w: World, socket: string, i: nat): Result<string, TransportError>
  {
    if socket !in w.files then Err(ConnectFailed(socket, NotFound))
    else Classify(socket, if i < |w.script| then w.script[i] else Fault(Connect, ConnectionRefused))
  }

  /** `send_socket_command`: one exchange on a fresh connection. The
      answer is `AnswerAt(w, socket, 0)`, it is logged with the request,
      and a connection that was made uses up one reply of the script. */
  function Send(w: World, socket: string, request: string): (e: Effect<Result<string, TransportError>>)
    ensures e.result == AnswerAt(w, socket, 0)
    ensures e.world.trace == w.trace + [Call(request, e.result)]
    ensures e.world.files == w.files && e.world.locked == w.locked
  {
    var answer := if socket in w.files then Classify(socket, NextReply(w.script)) else Err(ConnectFailed(socket, NotFound));
    var script := if socket in w.files then RestOf(w.script) else w.script;
    Effect(answer, w.(script := script, trace := w.trace + [Call(request, answer)]))
  }

  /** An exchange whose reply is plain returns that reply and uses it up. */
  lemma SendPlain(w: World, socket: string, request: string, data: string)
    requires socket in w.files && |w.script| >= 1 && w.script[0] == Answer(data) && PlainReply(data)
    ensures Send(w, socket, request)
         == Effect(Ok(data), w.(script := w.script[1..], trace := w.trace + [Call(request, Ok(data))]))
  {
    ClassifyPlainAnswer(socket, data);
  }

  /** After an exchange, the `i`-th answer from then on is the `i + 1`-th
      answer from before it. */
  lemma AnswerAfterSend(w: World, socket: string, request: string, i: nat)
    ensures AnswerAt(Send(w, socket, request).world, socket, i) == AnswerAt(w, socket, i + 1)
  {
  }

  /** `sleep(POLL_INTERVAL)`: only the trace records it. */
  function Sleep(w: World): World
  {
    w.(trace := w.trace + [Slept])
  }

  /** `fs::remove_file`: a missing path is NotFound, a locked one
      PermissionDenied, and any other one is removed. */
  function RemoveFile(w: World, path: string): (e: Effect<Result<(), ErrorKind>>)
    ensures e.result.Ok? <==> path in w.files && path !in w.locked
    ensures e.world == w.(files := if e.result.Ok? then w.files - {path} else w.files)
  {
    if path !in w.files then Effect(Err(NotFound), w)
    else if path in w.locked then Effect(Err(PermissionDenied), w)
    else Effect(Ok(()), w.(files := w.files - {path}))
  }

  /** The host as the driver's methods see it: mutable state whose value
      at any moment is `State()`. */
  class Env {
    var script: seq<Reply>
    var files: set<string>
    var locked: set<string>
    var trace: seq<Event>
    /** The bytes the most recent exchange wrote to the socket. */
    var written: string

    function State(): World
      reads this
    {
      World(script, files, locked, trace)
    }

    constructor (w: World)
      ensures State() == w
    {
      script := w.script;
      files := w.files;
      locked := w.locked;
      trace := w.trace;
      written := [];
    }

    /** `Path::exists`. */
    function Exists(path: string): bool
      reads this
    {
      path in files
    }

    /** `send_socket_command`: connect, set the read and write timeouts,
        write `Frame(request)`, read one line. */
    method SendCommand(socket: string, request: string) returns (r: Result<string, TransportError>)
      modifies this
      ensures r == Send(old(State()), socket, request).result
      ensures State() == Send(old(State()), socket, request).world
      ensures written == if socket in old(files) then Written(socket, NextReply(old(script)), request) else []
    {
      if socket !in files {
        r := Err(ConnectFailed(socket, NotFound));
        written := [];
      } else {
        var reply := NextReply(script);
        script := RestOf(script);
        written := Written(socket, reply, request);
        r := Classify(socket, reply);
      }
      trace := trace + [Call(request, r)];
    }

    /** `sleep(POLL_INTERVAL)`. */
    method SleepInterval()
      modifies this
      ensures State() == Sleep(old(State()))
      ensures written == old(written)
    {
      trace := trace + [Slept];
    }

    /** `fs::remove_file`. */
    method Remove(path: string) returns (r: Result<(), ErrorKind>)
      modifies this
      ensures r == RemoveFile(old(State()), path).result
      ensures State() == RemoveFile(old(State()), path).world
      ensures written == old(written)
    {
      if path !in files {
        r := Err(NotFound);
      } else if path in locked {
        r := Err(PermissionDenied);
      } else {
        files := files - {path};
        r := Ok(());
      }
    }

    /** A path comes into existence: the binary a compiler writes, or the
        socket a daemon listens on. */
    method CreateFile(path: string)
      modifies this
      ensures State() == old(State()).(files := old(files) + {path})
      ensures written == old(written)
    {
      files := files + {path};
    }
  }
}
