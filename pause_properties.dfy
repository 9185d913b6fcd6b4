/** What `ensure_paused` leaves in the trace. The loop's traces are
    described a second time, by a grammar over events that knows nothing
    of sockets or scripts; every run of the loop is shown to produce a
    trace of the grammar, and the properties are proved of the grammar. */
module PauseProperties {
  import opened Wrappers
  import opened Transport
  import opened Commands
  import opened Traces
  import opened Text

  /** A status exchange whose answer makes the loop send a pause. */
  predicate RunningStatus(e: Event)
  {
    e.Call? && e.request == StatusRequest && e.answer.Ok?
    && !ShowsPaused(e.answer.value) && ShowsRunning(e.answer.value)
  }

  /** The traces of the pause loop with `left` polls to go that ends with
      `result`. A round is a status exchange; a transport error or a
      paused status ends the loop; a running status is followed by a
      pause exchange, whose failure ends the loop; otherwise a sleep and
      the next round follow. With no polls left the loop times out. */
  predicate PauseLog(events: seq<Event>, left: nat, result: Result<(), DriverError>)
    decreases left
  {
    if left == 0 then events == [] && result == Err(PauseTimeout)
    else
      && |events| >= 1 && events[0].Call? && events[0].request == StatusRequest
      && var a := events[0].answer;
         if a.Err? then events == [events[0]] && result == Err(SocketFailed(a.error))
         else if ShowsPaused(a.value) then events == [events[0]] && result == Ok(())
         else if ShowsRunning(a.value) then
           && |events| >= 2 && events[1].Call? && events[1].request == PauseRequest
           && if events[1].answer.Err? then
                events == events[..2] && result == Err(SocketFailed(events[1].answer.error))
              else
                |events| >= 3 && events[2] == Slept && PauseLog(events[3..], left - 1, result)
         else
           |events| >= 2 && events[1] == Slept && PauseLog(events[2..], left - 1, result)
  }

  // ---------------------------------------------------------------------
  // Every run of the loop follows the grammar
  // ---------------------------------------------------------------------

  /** The loop with `left` polls to go appends a trace of the grammar and
      touches no file; `s` names the loop's effect. */
  lemma {:induction false} PausedFromLog(w: World, socket: string, left: nat, s: Step<()>)
    requires s == PausedFrom(w, socket, left)
    ensures Extends(w, s.world)
    ensures s.world.files == w.files && s.world.locked == w.locked
    ensures PauseLog(Added(w, s.world), left, s.result)
    decreases left, 2
  {
    if left == 0 {
      AddedAppend(w, w, []);
    } else {
      var sent := Send(w, socket, StatusRequest);
      var a := sent.result;
      if a.Err? || ShowsPaused(a.value) {
        PausedLogStatusEnds(w, socket, left, s);
      } else if ShowsRunning(a.value) {
        if Send(sent.world, socket, PauseRequest).result.Err? {
          PausedLogPauseFails(w, socket, left, s);
        } else {
          PausedLogAfterPause(w, socket, left, s);
        }
      } else {
        PausedLogOther(w, socket, left, s);
      }
    }
  }

  /** A round that ends at its status exchange. */
  lemma PausedLogStatusEnds(w: World, socket: string, left: nat, s: Step<()>)
    requires left >= 1 && s == PausedFrom(w, socket, left)
    requires var a := Send(w, socket, StatusRequest).result; a.Err? || ShowsPaused(a.value)
    ensures Extends(w, s.world)
    ensures s.world.files == w.files && s.world.locked == w.locked
    ensures PauseLog(Added(w, s.world), left, s.result)
  {
    var sent := Send(w, socket, StatusRequest);
    if sent.result.Err? {
      PausedStatusFails(w, socket, left, sent.result.error, sent.world);
    } else {
      PausedSeen(w, socket, left, sent.result.value, sent.world);
    }
    AddedAppend(w, sent.world, [Call(StatusRequest, sent.result)]);
  }

  /** A round whose pause exchange fails. */
  lemma PausedLogPauseFails(w: World, socket: string, left: nat, s: Step<()>)
    requires left >= 1 && s == PausedFrom(w, socket, left)
    requires var sent := Send(w, socket, StatusRequest);
             && sent.result.Ok? && !ShowsPaused(sent.result.value) && ShowsRunning(sent.result.value)
             && Send(sent.world, socket, PauseRequest).result.Err?
    ensures Extends(w, s.world)
    ensures s.world.files == w.files && s.world.locked == w.locked
    ensures PauseLog(Added(w, s.world), left, s.result)
  {
    var sent := Send(w, socket, StatusRequest);
    var paused := Send(sent.world, socket, PauseRequest);
    PausedPauseFails(w, socket, left, sent.result.value, sent.world, paused.result.error, paused.world);
    var events := [Call(StatusRequest, sent.result), Call(PauseRequest, paused.result)];
    AddedAppend(w, paused.world, events);
    assert events == events[..2];
  }

  /** A round whose pause exchange got through: the step of the
      induction. */
  lemma {:induction false} PausedLogAfterPause(w: World, socket: string, left: nat, s: Step<()>)
    requires left >= 1 && s == PausedFrom(w, socket, left)
    requires var sent := Send(w, socket, StatusRequest);
             && sent.result.Ok? && !ShowsPaused(sent.result.value) && ShowsRunning(sent.result.value)
             && Send(sent.world, socket, PauseRequest).result.Ok?
    ensures Extends(w, s.world)
    ensures s.world.files == w.files && s.world.locked == w.locked
    ensures PauseLog(Added(w, s.world), left, s.result)
    decreases left, 1
  {
    var sent := Send(w, socket, StatusRequest);
    var paused := Send(sent.world, socket, PauseRequest);
    var next := Sleep(paused.world);
    PausedAfterPause(w, socket, left, sent.result.value, sent.world, paused.result.value, paused.world);
    ChainAfterPause(w, next, socket, sent.result.value, paused.result.value, left, s);
  }

  /** A round with any other status: the other step of the induction. */
  lemma {:induction false} PausedLogOther(w: World, socket: string, left: nat, s: Step<()>)
    requires left >= 1 && s == PausedFrom(w, socket, left)
    requires var a := Send(w, socket, StatusRequest).result;
             a.Ok? && !ShowsPaused(a.value) && !ShowsRunning(a.value)
    ensures Extends(w, s.world)
    ensures s.world.files == w.files && s.world.locked == w.locked
    ensures PauseLog(Added(w, s.world), left, s.result)
    decreases left, 1
  {
    var sent := Send(w, socket, StatusRequest);
    var next := Sleep(sent.world);
    PausedOther(w, socket, left, sent.result.value, sent.world);
    ChainAfterOther(w, next, socket, sent.result.value, left, s);
  }

  /** A running status, a pause that got through and a sleep, appended
      in front of a run of the loop with one poll fewer, make a run of the
      grammar. */
  lemma {:induction false} ChainAfterPause(w: World, next: World, socket: string, status: string, ack: string,
                                           left: nat, s: Step<()>)
    requires left >= 1 && !ShowsPaused(status) && ShowsRunning(status)
    requires next.trace == w.trace + [Call(StatusRequest, Ok(status)), Call(PauseRequest, Ok(ack)), Slept]
    requires next.files == w.files && next.locked == w.locked
    requires s == PausedFrom(next, socket, left - 1)
    ensures Extends(w, s.world)
    ensures s.world.files == w.files && s.world.locked == w.locked
    ensures PauseLog(Added(w, s.world), left, s.result)
    decreases left, 0
  {
    PausedFromLog(next, socket, left - 1, s);
    PauseRoundLog(w, next, status, ack, left, s);
  }

  /** The same, given what the loop with one poll fewer left behind. */
  lemma PauseRoundLog(w: World, next: World, status: string, ack: string, left: nat, s: Step<()>)
    requires left >= 1 && !ShowsPaused(status) && ShowsRunning(status)
    requires next.trace == w.trace + [Call(StatusRequest, Ok(status)), Call(PauseRequest, Ok(ack)), Slept]
    requires next.files == w.files && next.locked == w.locked
    requires Extends(next, s.world) && s.world.files == next.files && s.world.locked == next.locked
    requires PauseLog(Added(next, s.world), left - 1, s.result)
    ensures Extends(w, s.world)
    ensures s.world.files == w.files && s.world.locked == w.locked
    ensures PauseLog(Added(w, s.world), left, s.result)
  {
    AddedAppend(w, next, [Call(StatusRequest, Ok(status)), Call(PauseRequest, Ok(ack)), Slept]);
    AddedChain(w, next, s.world);
    LogAfterPause(Added(w, s.world), status, ack, Added(next, s.world), left, s.result);
  }

  /** Any other status and a sleep, appended in front of a run of the
      loop with one poll fewer, make a run of the grammar. */
  lemma {:induction false} ChainAfterOther(w: World, next: World, socket: string, status: string,
                                           left: nat, s: Step<()>)
    requires left >= 1 && !ShowsPaused(status) && !ShowsRunning(status)
    requires next.trace == w.trace + [Call(StatusRequest, Ok(status)), Slept]
    requires next.files == w.files && next.locked == w.locked
    requires s == PausedFrom(next, socket, left - 1)
    ensures Extends(w, s.world)
    ensures s.world.files == w.files && s.world.locked == w.locked
    ensures PauseLog(Added(w, s.world), left, s.result)
    decreases left, 0
  {
    PausedFromLog(next, socket, left - 1, s);
    OtherRoundLog(w, next, status, left, s);
  }

  /** The same, given what the loop with one poll fewer left behind. */
  lemma OtherRoundLog(w: World, next: World, status: string, left: nat, s: Step<()>)
    requires left >= 1 && !ShowsPaused(status) && !ShowsRunning(status)
    requires next.trace == w.trace + [Call(StatusRequest, Ok(status)), Slept]
    requires next.files == w.files && next.locked == w.locked
    requires Extends(next, s.world) && s.world.files == next.files && s.world.locked == next.locked
    requires PauseLog(Added(next, s.world), left - 1, s.result)
    ensures Extends(w, s.world)
    ensures s.world.files == w.files && s.world.locked == w.locked
    ensures PauseLog(Added(w, s.world), left, s.result)
  {
    AddedAppend(w, next, [Call(StatusRequest, Ok(status)), Slept]);
    AddedChain(w, next, s.world);
    LogAfterOther(Added(w, s.world), status, Added(next, s.world), left, s.result);
  }

  /** A running status, a pause that got through and a sleep in front of
      a trace with one poll fewer make a trace of the grammar. */
  lemma LogAfterPause(events: seq<Event>, status: string, ack: string, rest: seq<Event>,
                      left: nat, result: Result<(), DriverError>)
    requires left >= 1 && !ShowsPaused(status) && ShowsRunning(status)
    requires PauseLog(rest, left - 1, result)
    requires events == [Call(StatusRequest, Ok(status)), Call(PauseRequest, Ok(ack)), Slept] + rest
    ensures PauseLog(events, left, result)
  {
    assert events[3..] == rest;
  }

  /** Any other status and a sleep in front of a trace with one poll fewer
      make a trace of the grammar. */
  lemma LogAfterOther(events: seq<Event>, status: string, rest: seq<Event>,
                      left: nat, result: Result<(), DriverError>)
    requires left >= 1 && !ShowsPaused(status) && !ShowsRunning(status)
    requires PauseLog(rest, left - 1, result)
    requires events == [Call(StatusRequest, Ok(status)), Slept] + rest
    ensures PauseLog(events, left, result)
  {
    assert events[2..] == rest;
  }

  // ---------------------------------------------------------------------
  // What the grammar promises
  // ---------------------------------------------------------------------

  /** Every exchange in the trace is a status query or a pause request. */
  predicate OnlyStatusAndPause(events: seq<Event>)
  {
    forall i :: 0 <= i < |events| && events[i].Call? ==>
      events[i].request == StatusRequest || events[i].request == PauseRequest
  }

  /** Every status answer that shows a running session is immediately
      followed by a pause request. */
  predicate PauseFollowsRunning(events: seq<Event>)
  {
    forall i :: 0 <= i < |events| && RunningStatus(events[i]) ==>
      i + 1 < |events| && events[i + 1].Call? && events[i + 1].request == PauseRequest
  }

  /** Every pause request comes right after a status answer that shows a
      running session. */
  predicate PauseAfterRunning(events: seq<Event>)
  {
    forall i :: 0 <= i < |events| && events[i].Call? && events[i].request == PauseRequest ==>
      i >= 1 && RunningStatus(events[i - 1])
  }

  /** The counts of a run: at most one status query per poll, at most one
      pause per status query and at most one sleep per status query; the
      loop times out exactly when it slept once per poll, and then it made
      every poll; a loop that ends otherwise slept once fewer than it
      queried. */
  lemma {:induction false} LogCounts(events: seq<Event>, left: nat, result: Result<(), DriverError>)
    requires PauseLog(events, left, result)
    ensures CallsTo(events, StatusRequest) <= left
    ensures CallsTo(events, PauseRequest) <= CallsTo(events, StatusRequest)
    ensures result == Err(PauseTimeout) <==> Sleeps(events) == left
    ensures result == Err(PauseTimeout) ==> CallsTo(events, StatusRequest) == left
    ensures result != Err(PauseTimeout) ==> Sleeps(events) + 1 == CallsTo(events, StatusRequest)
    decreases left, 1
  {
    if left >= 1 {
      var a := events[0].answer;
      if a.Err? || ShowsPaused(a.value) {
        assert events == [Call(StatusRequest, a)];
        RoundShapeCounts(a, Ok(""));
      } else if ShowsRunning(a.value) {
        var b := events[1].answer;
        if b.Err? {
          assert events == [Call(StatusRequest, a), Call(PauseRequest, b)];
          RoundShapeCounts(a, b);
        } else {
          assert events == [Call(StatusRequest, a), Call(PauseRequest, b), Slept] + events[3..];
          CountsAfterPause(events, events[3..], a, b, left, result);
        }
      } else {
        assert events == [Call(StatusRequest, a), Slept] + events[2..];
        CountsAfterOther(events, events[2..], a, left, result);
      }
    }
  }

  /** The counts after a round with a pause. */
  lemma {:induction false} CountsAfterPause(events: seq<Event>, rest: seq<Event>,
                                            a: Result<string, TransportError>, b: Result<string, TransportError>,
                                            left: nat, result: Result<(), DriverError>)
    requires left >= 1 && PauseLog(rest, left - 1, result)
    requires events == [Call(StatusRequest, a), Call(PauseRequest, b), Slept] + rest
    ensures CallsTo(events, StatusRequest) <= left
    ensures CallsTo(events, PauseRequest) <= CallsTo(events, StatusRequest)
    ensures result == Err(PauseTimeout) <==> Sleeps(events) == left
    ensures result == Err(PauseTimeout) ==> CallsTo(events, StatusRequest) == left
    ensures result != Err(PauseTimeout) ==> Sleeps(events) + 1 == CallsTo(events, StatusRequest)
    decreases left, 0
  {
    LogCounts(rest, left - 1, result);
    RoundShapeCounts(a, b);
    RoundCounts([Call(StatusRequest, a), Call(PauseRequest, b), Slept], rest);
  }

  /** The counts after a round with any other status. */
  lemma {:induction false} CountsAfterOther(events: seq<Event>, rest: seq<Event>, a: Result<string, TransportError>,
                                            left: nat, result: Result<(), DriverError>)
    requires left >= 1 && PauseLog(rest, left - 1, result)
    requires events == [Call(StatusRequest, a), Slept] + rest
    ensures CallsTo(events, StatusRequest) <= left
    ensures CallsTo(events, PauseRequest) <= CallsTo(events, StatusRequest)
    ensures result == Err(PauseTimeout) <==> Sleeps(events) == left
    ensures result == Err(PauseTimeout) ==> CallsTo(events, StatusRequest) == left
    ensures result != Err(PauseTimeout) ==> Sleeps(events) + 1 == CallsTo(events, StatusRequest)
    decreases left, 0
  {
    LogCounts(rest, left - 1, result);
    RoundShapeCounts(a, Ok(""));
    RoundCounts([Call(StatusRequest, a), Slept], rest);
  }

  /** The counts of the four shapes a round can take. */
  lemma RoundShapeCounts(a: Result<string, TransportError>, b: Result<string, TransportError>)
    ensures var round := [Call(StatusRequest, a)];
            && CallsTo(round, StatusRequest) == 1 && CallsTo(round, PauseRequest) == 0 && Sleeps(round) == 0
    ensures var round := [Call(StatusRequest, a), Call(PauseRequest, b)];
            && CallsTo(round, StatusRequest) == 1 && CallsTo(round, PauseRequest) == 1 && Sleeps(round) == 0
    ensures var round := [Call(StatusRequest, a), Call(PauseRequest, b), Slept];
            && CallsTo(round, StatusRequest) == 1 && CallsTo(round, PauseRequest) == 1 && Sleeps(round) == 1
    ensures var round := [Call(StatusRequest, a), Slept];
            && CallsTo(round, StatusRequest) == 1 && CallsTo(round, PauseRequest) == 0 && Sleeps(round) == 1
  {
    assert |StatusRequest| != |PauseRequest|;
    assert [Call(StatusRequest, a)][1..] == [];
    assert [Call(StatusRequest, a), Call(PauseRequest, b)][1..] == [Call(PauseRequest, b)];
    assert [Call(StatusRequest, a), Call(PauseRequest, b), Slept][1..] == [Call(PauseRequest, b), Slept];
    assert [Call(StatusRequest, a), Slept][1..] == [Slept];
    assert [Call(PauseRequest, b)][1..] == [] && [Slept][1..] == [];
    assert [Call(PauseRequest, b), Slept][1..] == [Slept];
    var tail := [Call(PauseRequest, b), Slept];
    assert CallsTo(tail, StatusRequest) == 0 && CallsTo(tail, PauseRequest) == 1 && Sleeps(tail) == 1;
  }

  /** The counts of a round in front of the rest of a run. */
  lemma RoundCounts(round: seq<Event>, rest: seq<Event>)
    ensures CallsTo(round + rest, StatusRequest) == CallsTo(round, StatusRequest) + CallsTo(rest, StatusRequest)
    ensures CallsTo(round + rest, PauseRequest) == CallsTo(round, PauseRequest) + CallsTo(rest, PauseRequest)
    ensures Sleeps(round + rest) == Sleeps(round) + Sleeps(rest)
  {
    CallsToConcat(round, rest, StatusRequest);
    CallsToConcat(round, rest, PauseRequest);
    SleepsConcat(round, rest);
  }

  /** An exchange after which the loop sleeps and polls again: a pause
      request that got through, whatever its reply, or a status answer
      that shows neither a paused nor a running session, a not-ok one
      included. */
  predicate PollsAgain(e: Event)
  {
    e.Call? && e.answer.Ok?
    && (|| e.request == PauseRequest
        || (e.request == StatusRequest && !ShowsPaused(e.answer.value) && !ShowsRunning(e.answer.value)))
  }

  /** Every exchange that lets the loop go on is immediately followed by a
      sleep. */
  predicate SleepFollowsPollsAgain(events: seq<Event>)
  {
    forall i :: 0 <= i < |events| && PollsAgain(events[i]) ==> i + 1 < |events| && events[i + 1] == Slept
  }

  /** Every sleep comes right after an exchange that lets the loop go on. */
  predicate SleepAfterPollsAgain(events: seq<Event>)
  {
    forall i :: 0 <= i < |events| && events[i] == Slept ==> i >= 1 && PollsAgain(events[i - 1])
  }

  /** How a run's last exchange accounts for its result: a success comes
      right after a paused status, and a transport failure is the answer
      of the last exchange. */
  predicate EndsAsResult(events: seq<Event>, result: Result<(), DriverError>)
  {
    && (result.Ok? ==>
          |events| >= 1 && events[|events| - 1].Call? && events[|events| - 1].request == StatusRequest
          && events[|events| - 1].answer.Ok? && ShowsPaused(events[|events| - 1].answer.value))
    && (result.Err? && result.error.SocketFailed? ==>
          |events| >= 1 && events[|events| - 1].Call?
          && events[|events| - 1].answer == Err(result.error.cause))
  }

  /** The shape of a run: only status and pause requests, the first one a
      status query, a pause right after every running status and only
      there, a sleep right after every exchange that lets the loop go on
      and only there, and a last exchange that accounts for the result. */
  lemma {:induction false} LogShape(events: seq<Event>, left: nat, result: Result<(), DriverError>)
    requires PauseLog(events, left, result)
    ensures OnlyStatusAndPause(events)
    ensures PauseFollowsRunning(events)
    ensures SleepFollowsPollsAgain(events)
    ensures PauseAfterRunning(events) && SleepAfterPollsAgain(events)
    ensures EndsAsResult(events, result)
    ensures left >= 1 ==> |events| >= 1 && events[0].Call? && events[0].request == StatusRequest
    decreases left, 1
  {
    if left >= 1 {
      var a := events[0].answer;
      if a.Err? || ShowsPaused(a.value) {
      } else if ShowsRunning(a.value) {
        if events[1].answer.Err? {
          assert events == [events[0], events[1]];
        } else {
          var round := [Call(StatusRequest, a), Call(PauseRequest, events[1].answer), Slept];
          assert events == round + events[3..];
          RoundShapes(a, events[1].answer);
          ShapeAfterRound(events, round, events[3..], left, result);
        }
      } else {
        var round := [Call(StatusRequest, a), Slept];
        assert events == round + events[2..];
        RoundShapes(a, Ok(""));
        ShapeAfterRound(events, round, events[2..], left, result);
      }
    }
  }

  /** The step of the induction: a round that ends in a sleep, in front
      of a trace with one poll fewer. */
  lemma {:induction false} ShapeAfterRound(events: seq<Event>, round: seq<Event>, rest: seq<Event>,
                                           left: nat, result: Result<(), DriverError>)
    requires left >= 1 && PauseLog(rest, left - 1, result) && events == round + rest
    requires round != [] && round[|round| - 1] == Slept
    requires round[0].Call? && round[0].request == StatusRequest
    requires OnlyStatusAndPause(round) && PauseFollowsRunning(round) && SleepFollowsPollsAgain(round)
    requires PauseAfterRunning(round) && SleepAfterPollsAgain(round)
    ensures OnlyStatusAndPause(events)
    ensures PauseFollowsRunning(events)
    ensures SleepFollowsPollsAgain(events)
    ensures PauseAfterRunning(events) && SleepAfterPollsAgain(events)
    ensures EndsAsResult(events, result)
    ensures |events| >= 1 && events[0].Call? && events[0].request == StatusRequest
    decreases left, 0
  {
    LogShape(rest, left - 1, result);
    ShapeConcat(round, rest, result);
  }

  /** The loop ends in one of three ways: success, a timeout, or a
      transport failure. */
  lemma {:induction false} LogResult(events: seq<Event>, left: nat, result: Result<(), DriverError>)
    requires PauseLog(events, left, result)
    ensures result == Ok(()) || result == Err(PauseTimeout) || (result.Err? && result.error.SocketFailed?)
    decreases left
  {
    if left >= 1 {
      var a := events[0].answer;
      if a.Err? || ShowsPaused(a.value) {
      } else if ShowsRunning(a.value) {
        if events[1].answer.Ok? {
          LogResult(events[3..], left - 1, result);
        }
      } else {
        LogResult(events[2..], left - 1, result);
      }
    }
  }

  /** The rounds that end in a sleep have the shape: a running status
      with a pause that got through, or any other ok status. */
  lemma RoundShapes(a: Result<string, TransportError>, b: Result<string, TransportError>)
    ensures var round := [Call(StatusRequest, a), Call(PauseRequest, b), Slept];
            a.Ok? && !ShowsPaused(a.value) && ShowsRunning(a.value) && b.Ok? ==>
              OnlyStatusAndPause(round) && PauseFollowsRunning(round) && SleepFollowsPollsAgain(round)
              && PauseAfterRunning(round) && SleepAfterPollsAgain(round)
    ensures var round := [Call(StatusRequest, a), Slept];
            a.Ok? && !ShowsPaused(a.value) && !ShowsRunning(a.value) ==>
              OnlyStatusAndPause(round) && PauseFollowsRunning(round) && SleepFollowsPollsAgain(round)
              && PauseAfterRunning(round) && SleepAfterPollsAgain(round)
  {
  }

  /** A round that ends in a sleep, in front of a run, keeps the shape of
      the run. */
  lemma ShapeConcat(round: seq<Event>, rest: seq<Event>, result: Result<(), DriverError>)
    requires round != [] && round[|round| - 1] == Slept
    requires OnlyStatusAndPause(round) && PauseFollowsRunning(round) && SleepFollowsPollsAgain(round)
    requires PauseAfterRunning(round) && SleepAfterPollsAgain(round)
    requires OnlyStatusAndPause(rest) && PauseFollowsRunning(rest) && SleepFollowsPollsAgain(rest)
    requires PauseAfterRunning(rest) && SleepAfterPollsAgain(rest)
    requires EndsAsResult(rest, result)
    ensures OnlyStatusAndPause(round + rest)
    ensures PauseFollowsRunning(round + rest)
    ensures SleepFollowsPollsAgain(round + rest)
    ensures PauseAfterRunning(round + rest) && SleepAfterPollsAgain(round + rest)
    ensures EndsAsResult(round + rest, result)
  {
    var events := round + rest;
    forall i | 0 <= i < |events| && events[i].Call? && events[i].request == PauseRequest
      ensures i >= 1 && RunningStatus(events[i - 1])
    {
      if i >= |round| {
        assert events[i] == rest[i - |round|];
        assert events[i - 1] == rest[i - 1 - |round|];
      } else {
        assert events[i] == round[i];
        assert events[i - 1] == round[i - 1];
      }
    }
    forall i | 0 <= i < |events| && events[i] == Slept
      ensures i >= 1 && PollsAgain(events[i - 1])
    {
      if i >= |round| {
        assert events[i] == rest[i - |round|];
        assert events[i - 1] == rest[i - 1 - |round|];
      } else {
        assert events[i] == round[i];
        assert events[i - 1] == round[i - 1];
      }
    }
    forall i | 0 <= i < |events| && PollsAgain(events[i])
      ensures i + 1 < |events| && events[i + 1] == Slept
    {
      if i >= |round| {
        assert events[i] == rest[i - |round|];
      } else {
        assert events[i] == round[i];
      }
    }
    forall i | 0 <= i < |events| && RunningStatus(events[i])
      ensures i + 1 < |events| && events[i + 1].Call? && events[i + 1].request == PauseRequest
    {
      if i >= |round| {
        assert events[i] == rest[i - |round|];
      } else {
        assert events[i] == round[i];
      }
    }
    if rest != [] {
      assert events[|events| - 1] == rest[|rest| - 1];
    }
  }

  // ---------------------------------------------------------------------
  // `ensure_paused` itself
  // ---------------------------------------------------------------------

  /** The counts of `ensure_paused`: at most `polls` status queries, at
      most one pause per status query; it times out exactly when it slept
      `polls` times, and then it made all `polls` status queries; when it
      ends otherwise it slept once fewer than it queried. It touches no
      file. */
  lemma EnsurePausedCounts(w: World, socket: string, polls: nat)
    ensures var s := EnsurePausedSpec(w, socket, polls);
            && Extends(w, s.world)
            && s.world.files == w.files && s.world.locked == w.locked
            && CallsTo(Added(w, s.world), StatusRequest) <= polls
            && CallsTo(Added(w, s.world), PauseRequest) <= CallsTo(Added(w, s.world), StatusRequest)
            && (s.result == Err(PauseTimeout) <==> Sleeps(Added(w, s.world)) == polls)
            && (s.result == Err(PauseTimeout) ==> CallsTo(Added(w, s.world), StatusRequest) == polls)
            && (s.result != Err(PauseTimeout) ==>
                  Sleeps(Added(w, s.world)) + 1 == CallsTo(Added(w, s.world), StatusRequest))
  {
    var s := EnsurePausedSpec(w, socket, polls);
    PausedFromLog(w, socket, polls, s);
    LogCounts(Added(w, s.world), polls, s.result);
  }

  /** The shape of what `ensure_paused` sends: status queries and pauses
      only, a status query first, a pause right after every running
      status and nowhere else, a sleep right after every pause that got
      through and every status that is neither paused nor running and
      nowhere else, success only right after a paused status, and a
      transport failure only from the last exchange. */
  lemma EnsurePausedShape(w: World, socket: string, polls: nat)
    ensures var s := EnsurePausedSpec(w, socket, polls);
            && Extends(w, s.world)
            && OnlyStatusAndPause(Added(w, s.world))
            && PauseFollowsRunning(Added(w, s.world))
            && SleepFollowsPollsAgain(Added(w, s.world))
            && PauseAfterRunning(Added(w, s.world))
            && SleepAfterPollsAgain(Added(w, s.world))
            && EndsAsResult(Added(w, s.world), s.result)
            && (polls >= 1 ==> |Added(w, s.world)| >= 1 && Added(w, s.world)[0].Call?
                               && Added(w, s.world)[0].request == StatusRequest)
  {
    var s := EnsurePausedSpec(w, socket, polls);
    PausedFromLog(w, socket, polls, s);
    LogShape(Added(w, s.world), polls, s.result);
  }

  /** A running status and a pause acknowledgement at the head of the
      script make one round with a pause. */
  lemma RunningRound(w: World, socket: string, left: nat, running: string, ack: string)
    requires left >= 1 && socket in w.files && |w.script| >= 2
    requires PlainReply(running) && !ShowsPaused(running) && ShowsRunning(running) && PlainReply(ack)
    requires w.script[0] == Answer(running) && w.script[1] == Answer(ack)
    ensures PausedFrom(w, socket, left)
         == PausedFrom(w.(script := w.script[2..],
                          trace := w.trace + [Call(StatusRequest, Ok(running)), Call(PauseRequest, Ok(ack)), Slept]),
                       socket, left - 1)
  {
    var w1 := w.(script := w.script[1..], trace := w.trace + [Call(StatusRequest, Ok(running))]);
    SendPlain(w, socket, StatusRequest, running);
    var w2 := w1.(script := w1.script[1..], trace := w1.trace + [Call(PauseRequest, Ok(ack))]);
    SendPlain(w1, socket, PauseRequest, ack);
    PausedAfterPause(w, socket, left, running, w1, ack, w2);
    assert w1.script[1..] == w.script[2..];
    assert Sleep(w2).trace == w.trace + [Call(StatusRequest, Ok(running)), Call(PauseRequest, Ok(ack)), Slept];
  }

  /** A paused status at the head of the script ends the loop. */
  lemma PausedRound(w: World, socket: string, left: nat, paused: string)
    requires left >= 1 && socket in w.files && |w.script| >= 1
    requires PlainReply(paused) && ShowsPaused(paused)
    requires w.script[0] == Answer(paused)
    ensures PausedFrom(w, socket, left)
         == Effect(Ok(()), w.(script := w.script[1..], trace := w.trace + [Call(StatusRequest, Ok(paused))]))
  {
    var w1 := w.(script := w.script[1..], trace := w.trace + [Call(StatusRequest, Ok(paused))]);
    SendPlain(w, socket, StatusRequest, paused);
    PausedSeen(w, socket, left, paused, w1);
  }

  /** The events of two running rounds and a paused status. */
  function TwoPauseEvents(running: string, ack: string, paused: string): seq<Event>
  {
    [Call(StatusRequest, Ok(running)), Call(PauseRequest, Ok(ack)), Slept,
     Call(StatusRequest, Ok(running)), Call(PauseRequest, Ok(ack)), Slept,
     Call(StatusRequest, Ok(paused))]
  }

  /** Two running rounds and a paused status use up the five replies and
      end the loop with success. */
  lemma TwoPausesEffect(w: World, socket: string, polls: nat, running: string, ack: string, paused: string)
    requires polls >= 3 && socket in w.files
    requires PlainReply(running) && !ShowsPaused(running) && ShowsRunning(running)
    requires PlainReply(ack) && PlainReply(paused) && ShowsPaused(paused)
    requires w.script == [Answer(running), Answer(ack), Answer(running), Answer(ack), Answer(paused)]
    ensures EnsurePausedSpec(w, socket, polls)
         == Effect(Ok(()), w.(script := [], trace := w.trace + TwoPauseEvents(running, ack, paused)))
  {
    var round := [Call(StatusRequest, Ok(running)), Call(PauseRequest, Ok(ack)), Slept];
    var last := [Call(StatusRequest, Ok(paused))];
    var w1 := w.(script := w.script[2..], trace := w.trace + round);
    RunningRound(w, socket, polls, running, ack);
    var w2 := w1.(script := w1.script[2..], trace := w1.trace + round);
    RunningRound(w1, socket, polls - 1, running, ack);
    PausedRound(w2, socket, polls - 2, paused);
    TwoPauseTrace(w.trace, round, last, running, ack, paused);
    assert w2.script[1..] == [];
  }

  /** The two rounds and the last status, appended one after another. */
  lemma TwoPauseTrace(t: seq<Event>, round: seq<Event>, last: seq<Event>, running: string, ack: string, paused: string)
    requires round == [Call(StatusRequest, Ok(running)), Call(PauseRequest, Ok(ack)), Slept]
    requires last == [Call(StatusRequest, Ok(paused))]
    ensures t + round + round + last == t + TwoPauseEvents(running, ack, paused)
  {
    assert TwoPauseEvents(running, ack, paused) == round + round + last;
    assert t + round + round + last == t + (round + round + last);
  }

  /** Two running statuses and then a paused one: `ensure_paused` sends a
      pause after each running status, so it makes three status queries,
      two pauses and two sleeps, and succeeds. */
  lemma TwoPausesThreePolls(w: World, socket: string, polls: nat, running: string, ack: string, paused: string)
    requires polls >= 3 && socket in w.files
    requires PlainReply(running) && !ShowsPaused(running) && ShowsRunning(running)
    requires PlainReply(ack) && PlainReply(paused) && ShowsPaused(paused)
    requires w.script == [Answer(running), Answer(ack), Answer(running), Answer(ack), Answer(paused)]
    ensures var s := EnsurePausedSpec(w, socket, polls);
            && s.result == Ok(())
            && Extends(w, s.world)
            && Added(w, s.world) == TwoPauseEvents(running, ack, paused)
            && CallsTo(Added(w, s.world), StatusRequest) == 3
            && CallsTo(Added(w, s.world), PauseRequest) == 2
            && Sleeps(Added(w, s.world)) == 2
  {
    var s := EnsurePausedSpec(w, socket, polls);
    var events := TwoPauseEvents(running, ack, paused);
    TwoPausesEffect(w, socket, polls, running, ack, paused);
    AddedAppend(w, s.world, events);
    TwoPauseCounts(running, ack, paused);
  }

  lemma TwoPauseCounts(running: string, ack: string, paused: string)
    ensures var events := TwoPauseEvents(running, ack, paused);
            && CallsTo(events, StatusRequest) == 3
            && CallsTo(events, PauseRequest) == 2
            && Sleeps(events) == 2
  {
    var round := [Call(StatusRequest, Ok(running)), Call(PauseRequest, Ok(ack)), Slept];
    var last := [Call(StatusRequest, Ok(paused))];
    assert TwoPauseEvents(running, ack, paused) == round + round + last;
    RoundShapeCounts(Ok(running), Ok(ack));
    RoundCounts(round, round);
    RoundCounts(round + round, last);
    assert |StatusRequest| != |PauseRequest|;
  }

  /** A status reply that shows a running session. */
  const RunningReply: string := "{" + OkMarker + "," + RunningMarker + "}"

  /** A status reply that shows a paused session. */
  const PausedReply: string := "{" + OkMarker + "," + PausedMarker + "}"

  /** A reply to the pause request. */
  const PauseAck: string := "{" + OkMarker + "}"

  lemma RunningReplyRuns()
    ensures ShowsRunning(RunningReply)
  {
    ContainsMiddle("{", OkMarker, "," + RunningMarker + "}");
    ContainsMiddle("{" + OkMarker + ",", RunningMarker, "}");
  }

  lemma RunningReplyNotPaused()
    ensures !ShowsPaused(RunningReply)
  {
    assert 'p' !in OkMarker && 'p' !in RunningMarker;
    assert 'p' !in RunningReply;
    assert PausedMarker[10] == 'p';
    MissingCharNotContained(RunningReply, PausedMarker, 'p');
  }

  lemma PausedReplyPauses()
    ensures ShowsPaused(PausedReply)
  {
    ContainsMiddle("{", OkMarker, "," + PausedMarker + "}");
    ContainsMiddle("{" + OkMarker + ",", PausedMarker, "}");
  }

  lemma RepliesArePlain()
    ensures PlainReply(RunningReply) && PlainReply(PausedReply) && PlainReply(PauseAck)
  {
    assert '\n' !in OkMarker && '\n' !in RunningMarker && '\n' !in PausedMarker;
    assert RunningReply[0] == '{' && RunningReply[|RunningReply| - 1] == '}';
    assert PausedReply[0] == '{' && PausedReply[|PausedReply| - 1] == '}';
    assert PauseAck[0] == '{' && PauseAck[|PauseAck| - 1] == '}';
  }

  /** The scripted session of two running statuses, each answered by a
      pause, and then a paused status: three polls, two pauses, success. */
  lemma TwoPausesThreePollsScripted(w: World, socket: string)
    requires socket in w.files
    requires w.script == [Answer(RunningReply), Answer(PauseAck), Answer(RunningReply), Answer(PauseAck),
                          Answer(PausedReply)]
    ensures var s := EnsurePausedSpec(w, socket, PauseWaitPolls);
            && s.result == Ok(())
            && Extends(w, s.world)
            && CallsTo(Added(w, s.world), StatusRequest) == 3
            && CallsTo(Added(w, s.world), PauseRequest) == 2
  {
    RunningReplyRuns();
    RunningReplyNotPaused();
    PausedReplyPauses();
    RepliesArePlain();
    TwoPausesThreePolls(w, socket, PauseWaitPolls, RunningReply, PauseAck, PausedReply);
  }
}
