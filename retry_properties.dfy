/** What `run_command_retry` does, in closed form: it is decided by the
    answers the socket would give to the next exchanges, and the first of
    them that is a transport error or an ok response ends it. */
module RetryProperties {
  import opened Wrappers
  import opened Transport
  import opened Commands
  import opened Traces
  import opened Polling

  /** The answers that end the retry loop. */
  predicate RetryStops(a: Result<string, TransportError>)
  {
    a.Err? || ResponseOk(a.value)
  }

  /** The result of the retry loop when `a` is the last answer it got. */
  function RetryVerdict(name: string, a: Result<string, TransportError>): Result<string, DriverError>
  {
    match a
    case Err(e) => Err(SocketFailed(e))
    case Ok(response) => if ResponseOk(response) then Ok(response) else Err(RetryExhausted(name, response))
  }

  /** How many exchanges a retry loop with `n` attempts left makes. */
  function RetryUses(w: World, socket: string, n: nat): (k: nat)
    ensures k <= n && (n >= 1 ==> 1 <= k)
  {
    StopCount(Answers(w, socket, n), RetryStops)
  }

  /** The effect of a retry loop with `n` attempts left, in closed form:
      with `k` the number of attempts it uses, its result is fixed by the
      `k`-th answer, it takes `k` replies from the script, and it logs `k`
      exchanges with sleeps between them. */
  function RetryClosedEffect(w: World, socket: string, name: string, request: string, n: nat): Step<string>
    requires n >= 1
  {
    var k := RetryUses(w, socket, n);
    Effect(RetryVerdict(name, AnswerAt(w, socket, k - 1)), LoopWorld(w, socket, request, k))
  }

  /** The retry loop with any number of attempts left has the closed
      form. */
  lemma {:induction false} RetryFromClosedForm(w: World, socket: string, name: string, request: string,
                                               left: nat, last: string)
    requires left >= 1
    ensures RetryFrom(w, socket, name, request, left, last) == RetryClosedEffect(w, socket, name, request, left)
    decreases left, 1
  {
    if RetryStops(AnswerAt(w, socket, 0)) || left == 1 {
      RetryStopsAtOnce(w, socket, name, request, left, last);
    } else {
      RetryStep(w, socket, name, request, left, last);
    }
  }

  /** The inductive step: a first answer that continues the loop. */
  lemma {:induction false} RetryStep(w: World, socket: string, name: string, request: string,
                                     left: nat, last: string)
    requires left >= 2 && !RetryStops(AnswerAt(w, socket, 0))
    ensures RetryFrom(w, socket, name, request, left, last) == RetryClosedEffect(w, socket, name, request, left)
    decreases left, 0
  {
    RetryFromClosedForm(Sleep(Send(w, socket, request).world), socket, name, request,
                        left - 1, AnswerAt(w, socket, 0).value);
    RetryContinues(w, socket, name, request, left, last);
    ClosedStep(w, socket, name, request, left);
  }

  /** When the first answer continues the loop, the closed form with `n`
      attempts left is the closed form after that exchange and a sleep
      with `n - 1` left. */
  lemma ClosedStep(w: World, socket: string, name: string, request: string, n: nat)
    requires n >= 2 && !RetryStops(AnswerAt(w, socket, 0))
    ensures RetryClosedEffect(w, socket, name, request, n)
         == RetryClosedEffect(Sleep(Send(w, socket, request).world), socket, name, request, n - 1)
  {
    ClosedVerdictStep(w, socket, name, request, n);
    ClosedWorldStep(w, socket, name, request, n);
  }

  lemma ClosedVerdictStep(w: World, socket: string, name: string, request: string, n: nat)
    requires n >= 2 && !RetryStops(AnswerAt(w, socket, 0))
    ensures RetryClosedEffect(w, socket, name, request, n).result
         == RetryClosedEffect(Sleep(Send(w, socket, request).world), socket, name, request, n - 1).result
  {
    StopCountAfterSend(w, socket, request, n, RetryStops);
  }

  lemma ClosedWorldStep(w: World, socket: string, name: string, request: string, n: nat)
    requires n >= 2 && !RetryStops(AnswerAt(w, socket, 0))
    ensures RetryClosedEffect(w, socket, name, request, n).world
         == RetryClosedEffect(Sleep(Send(w, socket, request).world), socket, name, request, n - 1).world
  {
    StopCountAfterSend(w, socket, request, n, RetryStops);
    LoopWorldStep(w, socket, request, RetryUses(w, socket, n));
  }

  /** The first exchange ends the loop when its answer stops it or when it
      is the last attempt. */
  lemma RetryStopsAtOnce(w: World, socket: string, name: string, request: string, left: nat, last: string)
    requires left >= 1
    requires RetryStops(AnswerAt(w, socket, 0)) || left == 1
    ensures RetryUses(w, socket, left) == 1
    ensures RetryFrom(w, socket, name, request, left, last) == RetryClosedEffect(w, socket, name, request, left)
  {
    var s := RetryFrom(w, socket, name, request, left, last);
    var sent := Send(w, socket, request);
    var a0 := AnswerAt(w, socket, 0);
    if RetryStops(a0) {
      assert s == Effect(RetryVerdict(name, a0), sent.world);
    } else {
      assert s == RetryFrom(sent.world, socket, name, request, 0, a0.value);
    }
  }

  /** A first exchange that neither stops the loop nor is the last one
      is followed by a sleep and the loop with one attempt fewer. */
  lemma RetryContinues(w: World, socket: string, name: string, request: string, left: nat, last: string)
    requires left >= 2 && !RetryStops(AnswerAt(w, socket, 0))
    ensures RetryFrom(w, socket, name, request, left, last)
         == RetryFrom(Sleep(Send(w, socket, request).world), socket, name, request,
                      left - 1, AnswerAt(w, socket, 0).value)
  {
  }

  /** `run_command_retry` in closed form. With `k` the number of attempts
      it makes: `k` is at most `attempts`; every answer before the `k`-th
      was a response without `"ok":true`; the `k`-th answer decides the
      result (a transport error is returned at once, an ok response is
      returned as the result, and a not-ok one, possible only when `k` is
      `attempts`, gives RetryExhausted carrying it); the trace gains `k`
      exchanges with a sleep between each two; and the script loses `k`
      replies. */
  lemma RetryClosedForm(w: World, socket: string, name: string, request: string, attempts: nat)
    requires attempts >= 1
    ensures 1 <= RetryUses(w, socket, attempts) <= attempts
    ensures forall i :: 0 <= i < RetryUses(w, socket, attempts) - 1 ==>
              AnswerAt(w, socket, i).Ok? && !ResponseOk(AnswerAt(w, socket, i).value)
    ensures RetryUses(w, socket, attempts) < attempts ==>
              RetryStops(AnswerAt(w, socket, RetryUses(w, socket, attempts) - 1))
    ensures Retry(w, socket, name, request, attempts).result
         == RetryVerdict(name, AnswerAt(w, socket, RetryUses(w, socket, attempts) - 1))
    ensures Retry(w, socket, name, request, attempts).world
         == w.(script := Consumed(w, socket, RetryUses(w, socket, attempts)),
               trace := w.trace + Interleave(request, Answers(w, socket, RetryUses(w, socket, attempts))))
  {
    RetryFromClosedForm(w, socket, name, request, attempts, "");
    var xs := Answers(w, socket, attempts);
    var k := RetryUses(w, socket, attempts);
    LoopWorldShape(w, socket, request, k);
    forall i | 0 <= i < k - 1
      ensures AnswerAt(w, socket, i).Ok? && !ResponseOk(AnswerAt(w, socket, i).value)
    {
      assert !RetryStops(xs[i]);
    }
  }

  /** With no attempts at all the loop sends nothing and fails with an
      empty last response. */
  lemma RetryNoAttempts(w: World, socket: string, name: string, request: string)
    ensures Retry(w, socket, name, request, 0) == Effect(Err(RetryExhausted(name, "")), w)
  {
  }

  /** A response with `"ok":true` at the first attempt: one exchange, no
      sleep, and that response is the result. */
  lemma RetryFirstOk(w: World, socket: string, name: string, request: string, attempts: nat, response: string)
    requires attempts >= 1
    requires AnswerAt(w, socket, 0) == Ok(response) && ResponseOk(response)
    ensures var s := Retry(w, socket, name, request, attempts);
            && s.result == Ok(response)
            && s.world.trace == w.trace + [Call(request, Ok(response))]
  {
    RetryFromClosedForm(w, socket, name, request, attempts, "");
    assert Answers(w, socket, 1) == [Ok(response)];
  }

  /** The closed form in terms of the trace: with `k` the number of
      attempts, the loop appends `k` exchanges of its request and `k - 1`
      sleeps, leaves the files alone, and the `k`-th answer decides the
      result. */
  lemma RetryCounts(w: World, socket: string, name: string, request: string, attempts: nat)
    requires attempts >= 1
    ensures var s := Retry(w, socket, name, request, attempts);
            var k := RetryUses(w, socket, attempts);
            && Extends(w, s.world)
            && s.world.files == w.files && s.world.locked == w.locked
            && s.result == RetryVerdict(name, AnswerAt(w, socket, k - 1))
            && Requests(Added(w, s.world)) == Repeat(request, k)
            && CallsTo(Added(w, s.world), request) == k
            && Sleeps(Added(w, s.world)) == k - 1
  {
    var s := Retry(w, socket, name, request, attempts);
    var k := RetryUses(w, socket, attempts);
    RetryFromClosedForm(w, socket, name, request, attempts, "");
    assert s == RetryClosedEffect(w, socket, name, request, attempts);
    LoopWorldCounts(w, socket, request, k);
  }

  /** Responses that are never ok: exactly `attempts` exchanges,
      `attempts - 1` sleeps, and RetryExhausted carrying the last
      response. */
  lemma RetryAllNotOk(w: World, socket: string, name: string, request: string, attempts: nat)
    requires attempts >= 1
    requires forall i :: 0 <= i < attempts ==> AnswerAt(w, socket, i).Ok? && !ResponseOk(AnswerAt(w, socket, i).value)
    ensures var s := Retry(w, socket, name, request, attempts);
            && Extends(w, s.world)
            && s.result == Err(RetryExhausted(name, AnswerAt(w, socket, attempts - 1).value))
            && CallsTo(Added(w, s.world), request) == attempts
            && Sleeps(Added(w, s.world)) == attempts - 1
  {
    var xs := Answers(w, socket, attempts);
    forall i | 0 <= i < attempts ensures !RetryStops(xs[i]) {
    }
    StopCountNone(xs, RetryStops);
    RetryCounts(w, socket, name, request, attempts);
  }

  /** A transport error stops the loop: if the answer at exchange `i`
      is a transport error and every earlier one a not-ok response, the
      loop makes exactly `i + 1` exchanges and returns that error. */
  lemma RetryTransportErrorStops(w: World, socket: string, name: string, request: string,
                                 attempts: nat, i: nat, e: TransportError)
    requires i < attempts
    requires AnswerAt(w, socket, i) == Err(e)
    requires forall j :: 0 <= j < i ==> AnswerAt(w, socket, j).Ok? && !ResponseOk(AnswerAt(w, socket, j).value)
    ensures var s := Retry(w, socket, name, request, attempts);
            && Extends(w, s.world)
            && s.result == Err(SocketFailed(e))
            && CallsTo(Added(w, s.world), request) == i + 1
            && Sleeps(Added(w, s.world)) == i
  {
    var xs := Answers(w, socket, attempts);
    forall j | 0 <= j < i ensures !RetryStops(xs[j]) {
    }
    StopCountAt(xs, RetryStops, i);
    RetryCounts(w, socket, name, request, attempts);
  }

  /** Whatever happens, the loop sends only its request, at most
      `attempts` times, and at least once when it succeeds. */
  lemma RetryRequests(w: World, socket: string, name: string, request: string, attempts: nat)
    ensures var s := Retry(w, socket, name, request, attempts);
            && Extends(w, s.world)
            && s.world.files == w.files && s.world.locked == w.locked
            && exists n: nat :: n <= attempts && Requests(Added(w, s.world)) == Repeat(request, n) &&
                                (s.result.Ok? ==> n >= 1)
  {
    var s := Retry(w, socket, name, request, attempts);
    if attempts == 0 {
      assert Requests(Added(w, s.world)) == Repeat(request, 0);
    } else {
      RetryCounts(w, socket, name, request, attempts);
    }
  }
}
