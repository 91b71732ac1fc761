/**
  Runs of the mutation controller over explicit event sequences: mounting,
  unmounting, calls of the mutation function and the arrival of settled
  executor outcomes in any order. The lemmas state what the controller
  promises about such interleavings.
 */
module Interleaving {
  import opened Base
  import opened ResultState
  import opened Options
  import opened MutationController

  datatype Event =
    | Mount
    | Unmount
    | Call(options: MutationOptions, operations: Option<Registry>)
    | Arrive(id: nat, outcome: ExecutionOutcome)

  /** What one event made observable. */
  datatype Effect =
    | Quiet
    | Dispatched(id: nat, request: Request)
    | Delivered(id: nat, callback: CallbackCall, promise: Promise)

  function Step(c: Controller, props: MutationProps, e: Event): (Controller, Effect) {
    match e
    case Mount => (Start(c), Quiet)
    case Unmount => (Finish(c), Quiet)
    case Call(options, operations) =>
      var inv := RunMutation(c, props, options, operations);
      (inv.controller, Dispatched(inv.id, inv.request))
    case Arrive(id, outcome) =>
      var s := Settle(c, props, id, outcome);
      (s.controller, Delivered(id, s.callback, s.promise))
  }

  /** The controller after the events, and one effect per event. */
  function Run(c: Controller, props: MutationProps, es: seq<Event>): (r: (Controller, seq<Effect>))
    ensures |r.1| == |es|
    decreases |es|
  {
    if es == [] then (c, [])
    else
      var (c', effect) := Step(c, props, es[0]);
      var rest := Run(c', props, es[1..]);
      (rest.0, [effect] + rest.1)
  }

  function CountCalls(es: seq<Event>): nat
    decreases |es|
  {
    if es == [] then 0 else (if es[0].Call? then 1 else 0) + CountCalls(es[1..])
  }

  /** Only arrivals, each for a different invocation. */
  predicate DistinctArrivals(es: seq<Event>) {
    && (forall k :: 0 <= k < |es| ==> es[k].Arrive?)
    && (forall i, j :: 0 <= i < j < |es| ==> es[i].Arrive? && es[j].Arrive? && es[i].id != es[j].id)
  }

  /** Running two sequences one after the other is running their concatenation. */
  lemma {:induction false} RunAppend(c: Controller, props: MutationProps, a: seq<Event>, b: seq<Event>)
    ensures var ra := Run(c, props, a); var rb := Run(ra.0, props, b);
      Run(c, props, a + b) == (rb.0, ra.1 + rb.1)
    decreases |a|
  {
    if a != [] {
      assert (a + b)[0] == a[0];
      assert (a + b)[1..] == a[1..] + b;
      var (c', effect) := Step(c, props, a[0]);
      RunAppend(c', props, a[1..], b);
      var ra := Run(c', props, a[1..]);
      var rb := Run(ra.0, props, b);
      assert [effect] + (ra.1 + rb.1) == ([effect] + ra.1) + rb.1;
    } else {
      assert a + b == b;
      assert Run(c, props, a) == (c, []);
      assert [] + Run(c, props, b).1 == Run(c, props, b).1;
    }
  }

  /**
    Ids are minted only by calls, one per call: after any run the most recent
    id is the starting one plus the number of calls, and the client is never
    replaced.
   */
  lemma {:induction false} IdsCountCalls(c: Controller, props: MutationProps, es: seq<Event>)
    ensures Run(c, props, es).0.mostRecentMutationId == c.mostRecentMutationId + CountCalls(es)
    ensures Run(c, props, es).0.client == c.client
    decreases |es|
  {
    if es != [] {
      var (c', _) := Step(c, props, es[0]);
      IdsCountCalls(c', props, es[1..]);
    }
  }

  /**
    Each call, and nothing else, dispatches the request `mutate` builds for
    its options; the ids it dispatches under are fresh (above the starting
    id, at most the final one) and strictly increase along the run.
   */
  lemma {:induction false} DispatchedIdsIncrease(c: Controller, props: MutationProps, es: seq<Event>)
    ensures var r := Run(c, props, es);
      && (forall k :: 0 <= k < |es| ==> (r.1[k].Dispatched? <==> es[k].Call?))
      && (forall k :: 0 <= k < |es| && es[k].Call? ==>
            r.1[k].Dispatched? && r.1[k].request == Mutate(props, es[k].options, es[k].operations))
      && (forall k :: 0 <= k < |es| && r.1[k].Dispatched? ==>
            c.mostRecentMutationId < r.1[k].id <= r.0.mostRecentMutationId)
      && (forall i, j :: 0 <= i < j < |es| && r.1[i].Dispatched? && r.1[j].Dispatched? ==> r.1[i].id < r.1[j].id)
    decreases |es|
  {
    if es != [] {
      var (c', effect) := Step(c, props, es[0]);
      var rest := Run(c', props, es[1..]);
      var r := Run(c, props, es);
      assert r.1 == [effect] + rest.1;
      assert r.0 == rest.0;
      DispatchedIdsIncrease(c', props, es[1..]);
      IdsCountCalls(c', props, es[1..]);
      assert c.mostRecentMutationId <= c'.mostRecentMutationId;
      assert effect.Dispatched? ==> effect.id == c'.mostRecentMutationId;
      forall k | 1 <= k < |es|
        ensures r.1[k] == rest.1[k - 1] && es[k] == es[1..][k - 1]
      {
      }
    }
  }

  /** A second start while the first is loading (or when results are ignored) leaves the snapshot alone. */
  lemma StartIsIdempotent(c: Controller, props: MutationProps)
    ensures OnMutationStart(OnMutationStart(c, props), props).state == OnMutationStart(c, props).state
  {
  }

  /**
    A burst of calls before anything arrives: the snapshot is as after the
    first call's start, and the most recent id is the last one minted.
   */
  lemma {:induction false} CallBurst(c: Controller, props: MutationProps, calls: seq<Event>)
    requires |calls| > 0
    requires forall k :: 0 <= k < |calls| ==> calls[k].Call?
    ensures var r := Run(c, props, calls).0;
      && r.state == OnMutationStart(c, props).state
      && r.mostRecentMutationId == c.mostRecentMutationId + |calls|
      && r.hasMounted == c.hasMounted
    decreases |calls|
  {
    var (c', _) := Step(c, props, calls[0]);
    if |calls| > 1 {
      CallBurst(c', props, calls[1..]);
      StartIsIdempotent(c, props);
    }
  }

  /**
    Arrivals in any order while mounted, one per invocation: only the most
    recent invocation's outcome is committed (if it arrives at all; otherwise
    the snapshot is unchanged), and every arrival delivers its own callback
    and promise, in arrival order.
   */
  lemma {:induction false} LatestWins(c: Controller, props: MutationProps, es: seq<Event>)
    requires c.hasMounted
    requires DistinctArrivals(es)
    ensures var r := Run(c, props, es);
      && r.0.mostRecentMutationId == c.mostRecentMutationId
      && r.0.hasMounted
      && ((forall k :: 0 <= k < |es| ==> es[k].id != c.mostRecentMutationId) ==> r.0.state == c.state)
      && (forall k :: 0 <= k < |es| && es[k].id == c.mostRecentMutationId ==>
            r.0.state == Commit(c.state, props, es[k].outcome))
      && (forall k :: 0 <= k < |es| ==>
            r.1[k] == Delivered(es[k].id, CallbackFor(props, es[k].outcome), PromiseFor(props, es[k].outcome)))
    decreases |es|
  {
    if es != [] {
      var (c', effect) := Step(c, props, es[0]);
      var rest := Run(c', props, es[1..]);
      var r := Run(c, props, es);
      assert r.1 == [effect] + rest.1;
      assert DistinctArrivals(es[1..]) by {
        forall i, j | 0 <= i < j < |es[1..]|
          ensures es[1..][i].id != es[1..][j].id
        {
          assert es[1..][i] == es[i + 1] && es[1..][j] == es[j + 1];
        }
      }
      LatestWins(c', props, es[1..]);
      forall k | 1 <= k < |es|
        ensures r.1[k] == rest.1[k - 1] && es[k] == es[1..][k - 1]
      {
      }
      if es[0].id == c.mostRecentMutationId {
        forall k | 0 <= k < |es[1..]|
          ensures es[1..][k].id != c.mostRecentMutationId
        {
          assert es[1..][k] == es[k + 1];
        }
      }
    }
  }

  /**
    The scenario of several calls issued before any settles: after all of
    them arrive, in any order, the snapshot holds the outcome of the call
    with the highest id committed over the loading snapshot, and every
    arrival delivered its callback and promise.
   */
  lemma CallsThenArrivals(c: Controller, props: MutationProps, calls: seq<Event>, arrivals: seq<Event>)
    requires c.hasMounted
    requires |calls| > 0
    requires forall k :: 0 <= k < |calls| ==> calls[k].Call?
    requires DistinctArrivals(arrivals)
    ensures var highest := c.mostRecentMutationId + |calls|;
      var started := OnMutationStart(c, props).state;
      var r := Run(c, props, calls + arrivals);
      && ((forall k :: 0 <= k < |arrivals| ==> arrivals[k].id != highest) ==> r.0.state == started)
      && (forall k :: 0 <= k < |arrivals| && arrivals[k].id == highest ==>
            r.0.state == Commit(started, props, arrivals[k].outcome))
      && (forall k :: 0 <= k < |arrivals| ==>
            r.1[|calls| + k] == Delivered(arrivals[k].id, CallbackFor(props, arrivals[k].outcome),
                                          PromiseFor(props, arrivals[k].outcome)))
  {
    RunAppend(c, props, calls, arrivals);
    CallBurst(c, props, calls);
    LatestWins(Run(c, props, calls).0, props, arrivals);
  }

  /**
    Two calls in quick succession, answered with data 99 and 100: whichever
    arrives first, the snapshot ends not loading, called, with the second
    call's data, and `onCompleted` fired once per arrival with its own data.
   */
  lemma TwoCallsSecondDataWins(c: Controller, props: MutationProps, options: MutationOptions, operations: Option<Registry>, secondFirst: bool)
    requires c.hasMounted && !IgnoresResults(props) && props.onCompleted.Some?
    requires Consistent(c.state)
    ensures var n := c.mostRecentMutationId;
      var first := Arrive(n + 1, Succeeded(Response(Some(Json(99)), None)));
      var second := Arrive(n + 2, Succeeded(Response(Some(Json(100)), None)));
      var arrivals := if secondFirst then [second, first] else [first, second];
      var r := Run(c, props, [Call(options, operations), Call(options, operations)] + arrivals);
      && r.0.state == Snapshot(true, false, Some(Json(100)), None)
      && r.1[2].Delivered? && r.1[2].callback == CompletedCalled(props.onCompleted.value, arrivals[0].outcome.response.data)
      && r.1[3].Delivered? && r.1[3].callback == CompletedCalled(props.onCompleted.value, arrivals[1].outcome.response.data)
  {
    var n := c.mostRecentMutationId;
    var first := Arrive(n + 1, Succeeded(Response(Some(Json(99)), None)));
    var second := Arrive(n + 2, Succeeded(Response(Some(Json(100)), None)));
    var arrivals := if secondFirst then [second, first] else [first, second];
    var calls := [Call(options, operations), Call(options, operations)];
    CallsThenArrivals(c, props, calls, arrivals);
    var k := if secondFirst then 0 else 1;
    assert arrivals[k].id == n + 2;
    assert arrivals[0].outcome.Succeeded? && arrivals[1].outcome.Succeeded?;
    assert CallbackFor(props, arrivals[0].outcome) == CompletedCalled(props.onCompleted.value, arrivals[0].outcome.response.data);
    assert CallbackFor(props, arrivals[1].outcome) == CompletedCalled(props.onCompleted.value, arrivals[1].outcome.response.data);
  }

  /**
    Once unmounted, arrivals (and further unmounts) change nothing: the
    controller is untouched and no callback fires, while each returned
    promise still settles as the outcome dictates.
   */
  lemma {:induction false} UnmountedArrivalsAreInert(c: Controller, props: MutationProps, es: seq<Event>)
    requires !c.hasMounted
    requires forall k :: 0 <= k < |es| ==> es[k].Arrive? || es[k].Unmount?
    ensures var r := Run(c, props, es);
      && r.0 == c
      && forall k :: 0 <= k < |es| && es[k].Arrive? ==>
           r.1[k] == Delivered(es[k].id, NoCallback, PromiseFor(props, es[k].outcome))
    decreases |es|
  {
    if es != [] {
      var (c', effect) := Step(c, props, es[0]);
      var rest := Run(c', props, es[1..]);
      var r := Run(c, props, es);
      assert r.1 == [effect] + rest.1;
      UnmountedArrivalsAreInert(c', props, es[1..]);
      forall k | 1 <= k < |es|
        ensures r.1[k] == rest.1[k - 1] && es[k] == es[1..][k - 1]
      {
      }
    }
  }

  /**
    With results ignored, no run ever makes the snapshot loading or changes
    its data; only a failure of the most recent invocation still writes its
    error.
   */
  lemma {:induction false} IgnoredResultsNeverLoad(c: Controller, props: MutationProps, es: seq<Event>)
    requires IgnoresResults(props) && !c.state.loading
    ensures !Run(c, props, es).0.state.loading
    ensures Run(c, props, es).0.state.data == c.state.data
    decreases |es|
  {
    if es != [] {
      var (c', _) := Step(c, props, es[0]);
      IgnoredResultsNeverLoad(c', props, es[1..]);
    }
  }

  /** Every run keeps a loading snapshot marked as called. */
  lemma {:induction false} RunKeepsConsistent(c: Controller, props: MutationProps, es: seq<Event>)
    requires Consistent(c.state)
    ensures Consistent(Run(c, props, es).0.state)
    decreases |es|
  {
    if es != [] {
      var (c', _) := Step(c, props, es[0]);
      match es[0] {
        case Arrive(id, outcome) => TransitionsKeepConsistent(c, props, id, outcome);
        case Call(_, _) => TransitionsKeepConsistent(c, props, 0, Failed(NetworkError(0)));
        case _ =>
      }
      RunKeepsConsistent(c', props, es[1..]);
    }
  }
}
