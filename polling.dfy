/** What the driver's polling loops have in common: they are decided by
    the answers the socket would give to the next exchanges, and they
    stop at the first answer of a given kind. This module names those
    answers, the position of the first stopping one, and the world that a
    run of exchanges with sleeps between them leaves behind. */
module Polling {
  import opened Wrappers
  import opened Transport
  import opened Traces

  /** The answers the next `n` exchanges on `socket` would get. */
  function Answers(w: World, socket: string, n: nat): (r: seq<Result<string, TransportError>>)
    ensures |r| == n && forall i :: 0 <= i < n ==> r[i] == AnswerAt(w, socket, i)
  {
    seq(n, i requires 0 <= i < n => AnswerAt(w, socket, i))
  }

  /** The index of the first element satisfying `p`, or `|xs|` when none
      does. */
  function FirstWhere<T>(xs: seq<T>, p: T -> bool): (k: nat)
    ensures k <= |xs|
    ensures forall i :: 0 <= i < k ==> !p(xs[i])
    ensures k < |xs| ==> p(xs[k])
  {
    if xs == [] then 0 else if p(xs[0]) then 0 else 1 + FirstWhere(xs[1..], p)
  }

  /** How many of `xs` a loop that stops after the first element
      satisfying `p`, and otherwise after all of them, gets through. */
  function StopCount<T>(xs: seq<T>, p: T -> bool): (k: nat)
    ensures k <= |xs| && (xs != [] ==> 1 <= k)
  {
    var j := FirstWhere(xs, p);
    if j < |xs| then j + 1 else |xs|
  }

  /** The script after `k` exchanges on `socket`. */
  function Consumed(w: World, socket: string, k: nat): seq<Reply>
  {
    if socket !in w.files then w.script
    else if k < |w.script| then w.script[k..]
    else []
  }

  /** Where no element stops the loop, it gets through all of them. */
  lemma StopCountNone<T>(xs: seq<T>, p: T -> bool)
    requires forall i :: 0 <= i < |xs| ==> !p(xs[i])
    ensures StopCount(xs, p) == |xs|
  {
  }

  /** The loop stops at the first element that satisfies `p`. */
  lemma StopCountAt<T>(xs: seq<T>, p: T -> bool, i: nat)
    requires i < |xs| && p(xs[i])
    requires forall j :: 0 <= j < i ==> !p(xs[j])
    ensures StopCount(xs, p) == i + 1
  {
  }

  lemma StopCountStep<T>(xs: seq<T>, p: T -> bool)
    requires xs != [] && !p(xs[0])
    ensures StopCount(xs, p) == if |xs| == 1 then 1 else 1 + StopCount(xs[1..], p)
  {
  }

  /** One exchange and then perhaps a sleep shift the answers by one. */
  lemma AnswersAfterSend(w: World, socket: string, request: string, sleep: bool, n: nat)
    ensures var w1 := Send(w, socket, request).world;
            var w2 := if sleep then Sleep(w1) else w1;
            && Answers(w2, socket, n) == Answers(w, socket, n + 1)[1..]
            && w2.files == w.files && w2.locked == w.locked
  {
    var w1 := Send(w, socket, request).world;
    var w2 := if sleep then Sleep(w1) else w1;
    assert w2.script == w1.script && w2.files == w1.files;
    forall i | 0 <= i < n ensures AnswerAt(w2, socket, i) == AnswerAt(w, socket, i + 1) {
      AnswerAfterSend(w, socket, request, i);
      assert AnswerAt(w2, socket, i) == AnswerAt(w1, socket, i);
    }
  }

  /** One exchange and then perhaps a sleep use up one reply. */
  lemma ConsumedAfterSend(w: World, socket: string, request: string, sleep: bool, k: nat)
    ensures var w1 := Send(w, socket, request).world;
            var w2 := if sleep then Sleep(w1) else w1;
            Consumed(w2, socket, k) == Consumed(w, socket, k + 1)
  {
    var w1 := Send(w, socket, request).world;
    if socket in w.files && w.script != [] {
      assert w1.script == w.script[1..];
      if k + 1 < |w.script| {
        assert w.script[1..][k..] == w.script[k + 1..];
      }
    }
  }

  /** The world after `k` exchanges on `socket` with a sleep between each
      two and none after the last. */
  function LoopWorld(w: World, socket: string, request: string, k: nat): World
    decreases k
  {
    if k == 0 then w
    else if k == 1 then Send(w, socket, request).world
    else LoopWorld(Sleep(Send(w, socket, request).world), socket, request, k - 1)
  }

  /** `k >= 2` exchanges with sleeps between them are one exchange, a
      sleep, and `k - 1` more. */
  lemma LoopWorldStep(w: World, socket: string, request: string, k: nat)
    requires k >= 2
    ensures LoopWorld(Sleep(Send(w, socket, request).world), socket, request, k - 1) == LoopWorld(w, socket, request, k)
  {
  }

  /** After `k` exchanges with sleeps between them the script has lost `k`
      replies and the trace holds the `k` exchanges with their answers,
      one sleep between each two. */
  lemma {:induction false} LoopWorldShape(w: World, socket: string, request: string, k: nat)
    ensures LoopWorld(w, socket, request, k)
         == w.(script := Consumed(w, socket, k), trace := w.trace + Interleave(request, Answers(w, socket, k)))
    decreases k
  {
    var a0 := AnswerAt(w, socket, 0);
    if k == 0 {
      assert Answers(w, socket, 0) == [];
    } else if k == 1 {
      SendWorld(w, socket, request);
      assert Answers(w, socket, 1) == [a0];
    } else {
      var w2 := Sleep(Send(w, socket, request).world);
      LoopWorldShape(w2, socket, request, k - 1);
      ExchangeThenInterleave(w, socket, request, k);
    }
  }

  /** `k >= 1` exchanges with sleeps between them append `k` calls of the
      request and `k - 1` sleeps to the trace, and touch no file. */
  lemma LoopWorldCounts(w: World, socket: string, request: string, k: nat)
    requires k >= 1
    ensures var lw := LoopWorld(w, socket, request, k);
            && Extends(w, lw)
            && lw.files == w.files && lw.locked == w.locked
            && Requests(Added(w, lw)) == Repeat(request, k)
            && CallsTo(Added(w, lw), request) == k
            && Sleeps(Added(w, lw)) == k - 1
  {
    var xs := Answers(w, socket, k);
    LoopWorldShape(w, socket, request, k);
    AddedAppend(w, LoopWorld(w, socket, request, k), Interleave(request, xs));
    InterleaveCounts(request, xs);
  }

  /** An exchange and a sleep in front of `k - 1` further exchanges with
      sleeps between them make `k` exchanges with sleeps between them. */
  lemma ExchangeThenInterleave(w: World, socket: string, request: string, k: nat)
    requires k >= 2
    ensures var w2 := Sleep(Send(w, socket, request).world);
            && Consumed(w2, socket, k - 1) == Consumed(w, socket, k)
            && w2.trace + Interleave(request, Answers(w2, socket, k - 1))
               == w.trace + Interleave(request, Answers(w, socket, k))
  {
    var a0 := AnswerAt(w, socket, 0);
    var w2 := Sleep(Send(w, socket, request).world);
    SendWorld(w, socket, request);
    assert w2.trace == w.trace + [Call(request, a0), Slept];
    AnswersAfterSend(w, socket, request, true, k - 1);
    ConsumedAfterSend(w, socket, request, true, k - 1);
    assert Answers(w, socket, k) == [a0] + Answers(w2, socket, k - 1);
    assert Interleave(request, Answers(w, socket, k))
        == [Call(request, a0), Slept] + Interleave(request, Answers(w2, socket, k - 1));
  }

  /** One exchange as a change of the world. */
  lemma SendWorld(w: World, socket: string, request: string)
    ensures Send(w, socket, request).world
         == w.(script := Consumed(w, socket, 1), trace := w.trace + [Call(request, AnswerAt(w, socket, 0))])
  {
  }

  /** A first answer that does not stop a loop with `n >= 2` exchanges
      left shifts the loop by one: after that exchange and a sleep, one
      exchange fewer is made, and the last answer is the same. */
  lemma StopCountAfterSend(w: World, socket: string, request: string, n: nat,
                           p: Result<string, TransportError> -> bool)
    requires n >= 2 && !p(AnswerAt(w, socket, 0))
    ensures var w2 := Sleep(Send(w, socket, request).world);
            && StopCount(Answers(w2, socket, n - 1), p) == StopCount(Answers(w, socket, n), p) - 1
            && AnswerAt(w2, socket, StopCount(Answers(w2, socket, n - 1), p) - 1)
               == AnswerAt(w, socket, StopCount(Answers(w, socket, n), p) - 1)
  {
    var w2 := Sleep(Send(w, socket, request).world);
    var xs := Answers(w, socket, n);
    AnswersAfterSend(w, socket, request, true, n - 1);
    StopCountStep(xs, p);
    assert xs[1..] == Answers(w2, socket, n - 1);
    var k2 := StopCount(Answers(w2, socket, n - 1), p);
    assert AnswerAt(w2, socket, k2 - 1) == Answers(w2, socket, n - 1)[k2 - 1] == xs[k2];
  }
}
