/** Reading a trace: the requests it sends, how many calls and sleeps it
    holds, and the shapes the driver's loops leave in it. */
module Traces {
  import opened Wrappers
  import opened Transport

  /** The requests of the exchanges in a trace, in order. */
  function Requests(events: seq<Event>): seq<string>
  {
    if events == [] then []
    else (if events[0].Call? then [events[0].request] else []) + Requests(events[1..])
  }

  /** The number of exchanges that sent `request`. */
  function CallsTo(events: seq<Event>, request: string): nat
  {
    if events == [] then 0
    else (if events[0].Call? && events[0].request == request then 1 else 0) + CallsTo(events[1..], request)
  }

  /** The number of sleeps. */
  function Sleeps(events: seq<Event>): nat
  {
    if events == [] then 0
    else (if events[0].Slept? then 1 else 0) + Sleeps(events[1..])
  }

  /** The counts of a concatenation add up. */
  lemma CountsConcat(a: seq<Event>, b: seq<Event>, request: string)
    ensures Requests(a + b) == Requests(a) + Requests(b)
    ensures CallsTo(a + b, request) == CallsTo(a, request) + CallsTo(b, request)
    ensures Sleeps(a + b) == Sleeps(a) + Sleeps(b)
  {
    RequestsConcat(a, b);
    CallsToConcat(a, b, request);
    SleepsConcat(a, b);
  }

  lemma {:induction false} RequestsConcat(a: seq<Event>, b: seq<Event>)
    ensures Requests(a + b) == Requests(a) + Requests(b)
  {
    if a == [] {
      assert a + b == b;
    } else {
      assert (a + b)[1..] == a[1..] + b;
      RequestsConcat(a[1..], b);
    }
  }

  lemma {:induction false} CallsToConcat(a: seq<Event>, b: seq<Event>, request: string)
    ensures CallsTo(a + b, request) == CallsTo(a, request) + CallsTo(b, request)
  {
    if a == [] {
      assert a + b == b;
    } else {
      assert (a + b)[1..] == a[1..] + b;
      CallsToConcat(a[1..], b, request);
    }
  }

  lemma {:induction false} SleepsConcat(a: seq<Event>, b: seq<Event>)
    ensures Sleeps(a + b) == Sleeps(a) + Sleeps(b)
  {
    if a == [] {
      assert a + b == b;
    } else {
      assert (a + b)[1..] == a[1..] + b;
      SleepsConcat(a[1..], b);
    }
  }

  /** `n` copies of one request. */
  function Repeat(request: string, n: nat): (r: seq<string>)
    ensures |r| == n && forall i :: 0 <= i < n ==> r[i] == request
  {
    seq(n, _ => request)
  }

  /** The trace of exchanges with the given answers, one sleep between
      each two of them and none after the last. */
  function Interleave(request: string, answers: seq<Result<string, TransportError>>): seq<Event>
  {
    if answers == [] then []
    else if |answers| == 1 then [Call(request, answers[0])]
    else [Call(request, answers[0]), Slept] + Interleave(request, answers[1..])
  }

  /** `Interleave` holds one call per answer and one sleep fewer. */
  lemma {:induction false} InterleaveCounts(request: string, answers: seq<Result<string, TransportError>>)
    requires answers != []
    ensures Requests(Interleave(request, answers)) == Repeat(request, |answers|)
    ensures CallsTo(Interleave(request, answers), request) == |answers|
    ensures Sleeps(Interleave(request, answers)) == |answers| - 1
  {
    var e := Interleave(request, answers);
    if |answers| == 1 {
      assert e[1..] == [];
    } else {
      var rest := Interleave(request, answers[1..]);
      InterleaveCounts(request, answers[1..]);
      CountsConcat([Call(request, answers[0]), Slept], rest, request);
      assert [Call(request, answers[0]), Slept][1..][1..] == [];
      assert [request] + Repeat(request, |answers| - 1) == Repeat(request, |answers|);
    }
  }

  /** The world `w2` is `w` with events appended to its trace. */
  ghost predicate Extends(w: World, w2: World)
  {
    |w.trace| <= |w2.trace| && w2.trace[..|w.trace|] == w.trace
  }

  /** The events appended between `w` and `w2`. */
  ghost function Added(w: World, w2: World): seq<Event>
    requires Extends(w, w2)
  {
    w2.trace[|w.trace|..]
  }

  lemma AddedChain(w1: World, w2: World, w3: World)
    requires Extends(w1, w2) && Extends(w2, w3)
    ensures Extends(w1, w3)
    ensures Added(w1, w3) == Added(w1, w2) + Added(w2, w3)
  {
    assert w3.trace[..|w1.trace|] == w3.trace[..|w2.trace|][..|w1.trace|];
  }

  /** A sleep appended after `w2` adds one sleep and no call. */
  lemma AddedSleep(w: World, w2: World, request: string)
    requires Extends(w, w2)
    ensures Extends(w, Sleep(w2))
    ensures Requests(Added(w, Sleep(w2))) == Requests(Added(w, w2))
    ensures CallsTo(Added(w, Sleep(w2)), request) == CallsTo(Added(w, w2), request)
    ensures Sleeps(Added(w, Sleep(w2))) == Sleeps(Added(w, w2)) + 1
  {
    AddedChain(w, w2, Sleep(w2));
    AddedAppend(w2, Sleep(w2), [Slept]);
    CountsConcat(Added(w, w2), [Slept], request);
    assert Requests([Slept]) == [];
  }

  lemma AddedAppend(w: World, w2: World, events: seq<Event>)
    requires w2.trace == w.trace + events
    ensures Extends(w, w2) && Added(w, w2) == events
  {
    assert w2.trace[..|w.trace|] == w.trace;
  }
}
