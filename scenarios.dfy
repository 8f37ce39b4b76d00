/** Whole chains run on the model: promises are built, `then` is called, and
    the host drains the task queue one task at a time. Each method states the
    settlement the chain reaches. */
module Scenarios {
  import opened PromiseCore
  import opened ResolutionProcedure
  import opened Tasks

  /** `x => x + 1` on numbers. */
  function AddOne(v: Value): Outcome
  {
    match v
    case Num(n) => Returns(Num(n + 1))
    case _ => Returns(v)
  }

  /** `x => x`, written out as a caller's handler. */
  function Same(v: Value): Outcome
  {
    Returns(v)
  }

  /** `v => q`: a handler returning the promise `q`. */
  function ReturnsPromise(q: Promise): Value -> Outcome
  {
    (v: Value) => Returns(Own(q))
  }

  /** `Promise.resolve(5).then(x => x + 1)` fulfils with 6, and only once the queued task has run. */
  method AddOneAfterResolve() returns (before: Status, status: Status, value: Value)
    ensures before == Pending
    ensures status == Fulfilled && value == Num(6)
  {
    var loop := new EventLoop();
    var p := Promise.FromValue(Num(5), loop);
    var p2 := p.Then(Some(Fn(AddOne)), None, loop);
    before := p2.status;
    assert loop.tasks == [Reaction(p, Fulfilment, Fn(AddOne), p2)];
    var t := loop.Dequeue();
    var _, _ := Run(t, loop);
    status, value := p2.status, p2.value;
  }

  /** Builds `Promise.reject('boom').then(x => x).then(null, e => e)`: one task for the default failure handler is queued, and the middle promise has the last one waiting on it. */
  method RejectedChain() returns (loop: EventLoop, p2: Promise, p3: Promise)
    ensures fresh(loop) && fresh(p2) && fresh(p3) && p2 != p3
    ensures p2.status == Pending && p3.Blank()
    ensures p2.rejectCallbacks == [Reaction(p2, Rejection, Fn(Same), p3)]
    ensures |loop.tasks| == 1 && loop.tasks[0].promise2 == p2 && loop.tasks[0].handler == Thrower
    ensures loop.tasks[0].side == Rejection && loop.tasks[0].source.reason == Str("boom")
    ensures loop.tasks[0].source != p2 && loop.tasks[0].source != p3
  {
    loop := new EventLoop();
    var p := Promise.FromReason(Str("boom"), loop);
    p2 := p.Then(Some(Fn(Same)), None, loop);
    p3 := p2.Then(None, Some(Fn(Same)), loop);
  }

  /** The chain of `RejectedChain` run to the end: the default failure handler
      passes the rejection down to the last `then`, whose handler recovers. */
  method RejectionPassesThrough() returns (middle: Status, status: Status, value: Value)
    ensures middle == Rejected
    ensures status == Fulfilled && value == Str("boom")
  {
    var loop, p2, p3 := RejectedChain();
    var t := loop.Dequeue();
    var _, _ := Run(t, loop);
    middle := p2.status;
    t := loop.Dequeue();
    var _, _ := Run(t, loop);
    status, value := p3.status, p3.value;
  }

  /** Builds two `then`s on a pending promise and resolves it with 42. */
  method TwoWaiters() returns (loop: EventLoop, d1: Promise, d2: Promise)
    ensures fresh(loop) && fresh(d1) && fresh(d2) && d1 != d2
    ensures d1.Blank() && d2.Blank()
    ensures |loop.tasks| == 2
    ensures loop.tasks[0].promise2 == d1 && loop.tasks[1].promise2 == d2
    ensures loop.tasks[0].source == loop.tasks[1].source
    ensures loop.tasks[0].source != d1 && loop.tasks[0].source != d2
    ensures loop.tasks[0].source.value == Num(42)
    ensures forall k :: 0 <= k < 2 ==> loop.tasks[k].side == Fulfilment && loop.tasks[k].handler == Fn(Same)
  {
    loop := new EventLoop();
    var p := Promise.Deferred(loop);
    d1 := p.Then(Some(Fn(Same)), None, loop);
    d2 := p.Then(Some(Fn(Same)), None, loop);
    p.Resolve(Num(42), loop);
  }

  /** The waiters of `TwoWaiters` run in registration order and both see 42. */
  method WaitersRunInOrder() returns (firstSettledFirst: bool, v1: Value, v2: Value)
    ensures firstSettledFirst
    ensures v1 == Num(42) && v2 == Num(42)
  {
    var loop, d1, d2 := TwoWaiters();
    var t := loop.Dequeue();
    var _, _ := Run(t, loop);
    firstSettledFirst := d1.status == Fulfilled && d2.status == Pending;
    t := loop.Dequeue();
    var _, _ := Run(t, loop);
    v1, v2 := d1.value, d2.value;
  }

  /** Builds `Promise.resolve(1).then(v => q)` for a pending promise `q`. */
  method ReturnsPending() returns (loop: EventLoop, q: Promise, p2: Promise)
    ensures fresh(loop) && fresh(q) && fresh(p2) && q != p2
    ensures q.Blank() && p2.Blank()
    ensures |loop.tasks| == 1 && loop.tasks[0].promise2 == p2
    ensures loop.tasks[0].handler == Fn(ReturnsPromise(q)) && loop.tasks[0].side == Fulfilment
    ensures loop.tasks[0].source != q && loop.tasks[0].source != p2
  {
    loop := new EventLoop();
    q := Promise.Deferred(loop);
    var p := Promise.FromValue(Num(1), loop);
    p2 := p.Then(Some(Fn(ReturnsPromise(q))), None, loop);
  }

  /** The handler of `ReturnsPending` returns `q`, which later rejects with
      'x': the derived promise waits for `q` and then rejects with 'x' rather
      than fulfilling. */
  method AdoptsRejection() returns (waiting: Status, status: Status, reason: Value)
    ensures waiting == Pending
    ensures status == Rejected && reason == Str("x")
  {
    var loop, q, p2 := ReturnsPending();
    var t := loop.Dequeue();
    var latch, p3 := Run(t, loop);
    waiting := p2.status;
    q.Reject(Str("x"), loop);
    t := loop.Dequeue();
    var _, _ := Run(t, loop);
    status, reason := p2.status, p2.reason;
  }

  /** A handler that throws rejects the derived promise with what it threw. */
  method HandlerThrows() returns (status: Status, reason: Value)
    ensures status == Rejected && reason == Str("err")
  {
    var loop := new EventLoop();
    var p := Promise.FromValue(Num(1), loop);
    var p2 := p.Then(Some(Fn((v: Value) => Throws(Str("err")))), None, loop);
    var t := loop.Dequeue();
    var _, _ := Run(t, loop);
    status, reason := p2.status, p2.reason;
  }

  /** A foreign thenable that calls back twice with different outcomes and
      then throws: only its first call counts, and a thenable handed to that
      call is unwrapped in turn. */
  method MisbehavingThenable() returns (status: Status, value: Value)
    ensures status == Fulfilled && value == Num(7)
  {
    var loop := new EventLoop();
    var inner := Obj(Callable([ResolveWith(Num(7)), ResolveWith(Num(8))]));
    var outer := Obj(Callable([ResolveWith(inner), RejectWith(Str("no")), Throw(Str("late"))]));
    var p2 := Promise.Deferred(loop);
    SuccessIsResolvedAgain(p2, inner, [RejectWith(Str("no")), Throw(Str("late"))]);
    SuccessIsResolvedAgain(p2, Num(7), [ResolveWith(Num(8))]);
    var _, _ := ResolvePromise(p2, outer, loop);
    status, value := p2.status, p2.value;
  }

  /** `let p2 = Promise.resolve(1).then(() => p2)`: the handler returns its
      own derived promise, which is rejected with the cycle TypeError. */
  method CycleThroughThen() returns (status: Status, reason: Value)
    ensures status == Rejected && reason == CycleError
  {
    var loop := new EventLoop();
    var p := Promise.FromValue(Num(1), loop);
    var p2 := p.Then(Some(Fn((v: Value) => ReturnsDerived)), None, loop);
    var t := loop.Dequeue();
    var _, _ := Run(t, loop);
    status, reason := p2.status, p2.reason;
  }

  /** `Promise.resolve(thenable).then()`: `Promise.resolve` stores the
      thenable as it is, and the default `v => v` hands it to the resolution
      procedure, so the derived promise fulfils with what the thenable
      calls back with, not with the stored thenable. */
  method ThenableValueUnwrapped() returns (stored: Value, status: Status, value: Value)
    ensures stored == Obj(Callable([ResolveWith(Num(1))]))
    ensures status == Fulfilled && value == Num(1) && value != stored
  {
    var loop := new EventLoop();
    var p := Promise.FromValue(Obj(Callable([ResolveWith(Num(1))])), loop);
    stored := p.value;
    var p2 := p.Then(None, None, loop);
    var t := loop.Dequeue();
    SuccessIsResolvedAgain(p2, Num(1), []);
    var _, _ := Run(t, loop);
    status, value := p2.status, p2.value;
  }

  /** Resolving a promise with itself rejects it with the cycle TypeError. */
  method SelfResolution() returns (status: Status, reason: Value)
    ensures status == Rejected && reason == TypeError("Chaining cycle detected for promise #<Promise>")
  {
    var loop := new EventLoop();
    var p2 := Promise.Deferred(loop);
    var _, _ := ResolvePromise(p2, Own(p2), loop);
    status, reason := p2.status, p2.reason;
  }

  /** An executor that resolves, then rejects, then throws: the first call decides. */
  method ExecutorFirstCallWins() returns (status: Status, value: Value)
    ensures status == Fulfilled && value == Num(1)
  {
    var loop := new EventLoop();
    var p := new Promise([ResolveWith(Num(1)), RejectWith(Num(2)), Throw(Num(3))], loop);
    FirstCallDecides([ResolveWith(Num(1)), RejectWith(Num(2)), Throw(Num(3))]);
    status, value := p.status, p.value;
  }
}
