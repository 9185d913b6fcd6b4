/** What `wait_for_status` does, in closed form: it polls the status
    until an answer is a transport error or an ok response holding
    `"connected":true`, sleeping after every other answer, the last one
    included. */
module WaitProperties {
  import opened Wrappers
  import opened Transport
  import opened Commands
  import opened Traces
  import opened Polling

  /** The answers that end the status loop. */
  predicate WaitStops(a: Result<string, TransportError>)
  {
    a.Err? || IsConnected(a.value)
  }

  /** The result of the status loop when `a` is the last answer it got. */
  function WaitVerdict(a: Result<string, TransportError>): Result<string, DriverError>
  {
    match a
    case Err(e) => Err(SocketFailed(e))
    case Ok(response) => if IsConnected(response) then Ok(response) else Err(StatusTimeout)
  }

  /** The world when the status loop has left `w` after its last answer
      `a`: it sleeps once more unless `a` stops it. */
  function WaitEnd(a: Result<string, TransportError>, w: World): World
  {
    if WaitStops(a) then w else Sleep(w)
  }

  /** How many polls a status loop with `n` polls left makes. */
  function WaitUses(w: World, socket: string, n: nat): (k: nat)
    ensures k <= n && (n >= 1 ==> 1 <= k)
  {
    StopCount(Answers(w, socket, n), WaitStops)
  }

  /** The effect of a status loop with `n` polls left, in closed form:
      with `k` the number of polls it makes, it ends on the `k`-th answer
      when that answer stops it, and otherwise times out after one more
      sleep; it takes `k` replies from the script and logs `k` polls with
      sleeps between them. */
  function WaitClosedEffect(w: World, socket: string, n: nat): Step<string>
    requires n >= 1
  {
    var k := WaitUses(w, socket, n);
    var a := AnswerAt(w, socket, k - 1);
    Effect(WaitVerdict(a), WaitEnd(a, LoopWorld(w, socket, StatusRequest, k)))
  }

  /** The status loop with any number of polls left has the closed
      form. */
  lemma {:induction false} WaitFromClosedForm(w: World, socket: string, left: nat)
    requires left >= 1
    ensures WaitFrom(w, socket, left) == WaitClosedEffect(w, socket, left)
    decreases left, 1
  {
    if WaitStops(AnswerAt(w, socket, 0)) || left == 1 {
      WaitStopsAtOnce(w, socket, left);
    } else {
      WaitStep(w, socket, left);
    }
  }

  /** The inductive step: a first answer that continues the loop. */
  lemma {:induction false} WaitStep(w: World, socket: string, left: nat)
    requires left >= 2 && !WaitStops(AnswerAt(w, socket, 0))
    ensures WaitFrom(w, socket, left) == WaitClosedEffect(w, socket, left)
    decreases left, 0
  {
    WaitFromClosedForm(Sleep(Send(w, socket, StatusRequest).world), socket, left - 1);
    WaitContinues(w, socket, left);
    WaitClosedStep(w, socket, left);
  }

  /** The first poll ends the loop when its answer stops it or when it is
      the last poll. */
  lemma WaitStopsAtOnce(w: World, socket: string, left: nat)
    requires left >= 1
    requires WaitStops(AnswerAt(w, socket, 0)) || left == 1
    ensures WaitUses(w, socket, left) == 1
    ensures WaitFrom(w, socket, left) == WaitClosedEffect(w, socket, left)
  {
    var s := WaitFrom(w, socket, left);
    var sent := Send(w, socket, StatusRequest);
    var a0 := AnswerAt(w, socket, 0);
    if WaitStops(a0) {
      assert s == Effect(WaitVerdict(a0), WaitEnd(a0, sent.world));
    } else {
      assert s == WaitFrom(Sleep(sent.world), socket, 0);
    }
  }

  /** A first poll that neither stops the loop nor is the last one is
      followed by a sleep and the loop with one poll fewer. */
  lemma WaitContinues(w: World, socket: string, left: nat)
    requires left >= 2 && !WaitStops(AnswerAt(w, socket, 0))
    ensures WaitFrom(w, socket, left) == WaitFrom(Sleep(Send(w, socket, StatusRequest).world), socket, left - 1)
  {
  }

  /** When the first answer continues the loop, the closed form with `n`
      polls left is the closed form after that poll and a sleep with
      `n - 1` left. */
  lemma WaitClosedStep(w: World, socket: string, n: nat)
    requires n >= 2 && !WaitStops(AnswerAt(w, socket, 0))
    ensures WaitClosedEffect(w, socket, n) == WaitClosedEffect(Sleep(Send(w, socket, StatusRequest).world), socket, n - 1)
  {
    StopCountAfterSend(w, socket, StatusRequest, n, WaitStops);
    LoopWorldStep(w, socket, StatusRequest, WaitUses(w, socket, n));
  }

  /** `wait_for_status` in closed form. With `k` the number of polls it
      makes: `k` is between 1 and `polls`; every answer before the `k`-th
      was an ok-less or unconnected response; if the `k`-th answer is a
      transport error or a connected response it decides the result, and
      otherwise `k` is `polls` and the loop times out; the trace gains `k`
      status exchanges with a sleep after each but the last, and a sleep
      after the last too when the loop times out. */
  lemma WaitClosedForm(w: World, socket: string, polls: nat)
    requires polls >= 1
    ensures 1 <= WaitUses(w, socket, polls) <= polls
    ensures forall i :: 0 <= i < WaitUses(w, socket, polls) - 1 ==>
              AnswerAt(w, socket, i).Ok? && !IsConnected(AnswerAt(w, socket, i).value)
    ensures !WaitStops(AnswerAt(w, socket, WaitUses(w, socket, polls) - 1)) ==>
              WaitUses(w, socket, polls) == polls
    ensures Wait(w, socket, polls) == WaitClosedEffect(w, socket, polls)
  {
    WaitFromClosedForm(w, socket, polls);
    var xs := Answers(w, socket, polls);
    var k := WaitUses(w, socket, polls);
    forall i | 0 <= i < k - 1
      ensures AnswerAt(w, socket, i).Ok? && !IsConnected(AnswerAt(w, socket, i).value)
    {
      assert !WaitStops(xs[i]);
    }
  }

  /** With no polls at all the loop times out without touching the
      world. */
  lemma WaitNoPolls(w: World, socket: string)
    ensures Wait(w, socket, 0) == Effect(Err(StatusTimeout), w)
  {
  }

  /** The result and the world of the loop, one by one. */
  lemma WaitClosedParts(w: World, socket: string, polls: nat)
    requires polls >= 1
    ensures var a := AnswerAt(w, socket, WaitUses(w, socket, polls) - 1);
            && Wait(w, socket, polls).result == WaitVerdict(a)
            && Wait(w, socket, polls).world == WaitEnd(a, LoopWorld(w, socket, StatusRequest, WaitUses(w, socket, polls)))
  {
    WaitFromClosedForm(w, socket, polls);
  }

  /** The closed form in terms of the trace: with `k` the number of polls
      and `a` the `k`-th answer, the loop appends `k` status calls, with a
      sleep after each of them but the last, and after the last one too
      when `a` does not stop it; it leaves the files alone and `a` decides
      the result. */
  lemma WaitCounts(w: World, socket: string, polls: nat)
    requires polls >= 1
    ensures var s := Wait(w, socket, polls);
            var k := WaitUses(w, socket, polls);
            var a := AnswerAt(w, socket, k - 1);
            && Extends(w, s.world)
            && s.world.files == w.files && s.world.locked == w.locked
            && s.result == WaitVerdict(a)
            && Requests(Added(w, s.world)) == Repeat(StatusRequest, k)
            && Sleeps(Added(w, s.world)) == (if WaitStops(a) then k - 1 else k)
  {
    var s := Wait(w, socket, polls);
    var k := WaitUses(w, socket, polls);
    var lw := LoopWorld(w, socket, StatusRequest, k);
    var a := AnswerAt(w, socket, k - 1);
    WaitClosedParts(w, socket, polls);
    LoopWorldCounts(w, socket, StatusRequest, k);
    if !WaitStops(a) {
      AddedSleep(w, lw, StatusRequest);
    }
  }

  /** The loop ends on the first stopping answer: if the answer at poll
      `i` is a transport error or a connected response and every earlier
      one is neither, the loop makes exactly `i + 1` status calls and `i`
      sleeps, and returns that response or that error. */
  lemma WaitStopsAt(w: World, socket: string, polls: nat, i: nat)
    requires i < polls
    requires WaitStops(AnswerAt(w, socket, i))
    requires forall j :: 0 <= j < i ==> AnswerAt(w, socket, j).Ok? && !IsConnected(AnswerAt(w, socket, j).value)
    ensures var s := Wait(w, socket, polls);
            && Extends(w, s.world)
            && s.result == (if AnswerAt(w, socket, i).Ok? then Ok(AnswerAt(w, socket, i).value)
                            else Err(SocketFailed(AnswerAt(w, socket, i).error)))
            && Requests(Added(w, s.world)) == Repeat(StatusRequest, i + 1)
            && Sleeps(Added(w, s.world)) == i
  {
    var xs := Answers(w, socket, polls);
    forall j | 0 <= j < i ensures !WaitStops(xs[j]) {
    }
    StopCountAt(xs, WaitStops, i);
    WaitCounts(w, socket, polls);
  }

  /** Answers none of which stops the loop: `polls` status calls, a sleep
      after each of them, and a timeout. */
  lemma WaitTimesOut(w: World, socket: string, polls: nat)
    requires forall i :: 0 <= i < polls ==> AnswerAt(w, socket, i).Ok? && !IsConnected(AnswerAt(w, socket, i).value)
    ensures var s := Wait(w, socket, polls);
            && Extends(w, s.world)
            && s.result == Err(StatusTimeout)
            && Requests(Added(w, s.world)) == Repeat(StatusRequest, polls)
            && Sleeps(Added(w, s.world)) == polls
  {
    var s := Wait(w, socket, polls);
    if polls == 0 {
      assert Added(w, s.world) == [];
    } else {
      var xs := Answers(w, socket, polls);
      forall i | 0 <= i < polls ensures !WaitStops(xs[i]) {
      }
      StopCountNone(xs, WaitStops);
      WaitCounts(w, socket, polls);
    }
  }

  /** Whatever happens, the loop sends only status requests, never more
      than `polls` of them, and sleeps at most once per status call. */
  lemma WaitBounded(w: World, socket: string, polls: nat)
    ensures var s := Wait(w, socket, polls);
            && Extends(w, s.world)
            && s.world.files == w.files && s.world.locked == w.locked
            && exists n: nat :: n <= polls && Requests(Added(w, s.world)) == Repeat(StatusRequest, n) &&
                                Sleeps(Added(w, s.world)) <= n
  {
    var s := Wait(w, socket, polls);
    if polls == 0 {
      assert Requests(Added(w, s.world)) == Repeat(StatusRequest, 0);
    } else {
      WaitCounts(w, socket, polls);
    }
  }
}
