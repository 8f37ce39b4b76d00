/** The promise state machine of `promise.js`: the values it handles, the
    `Promise` class with its settlement closures and `then`, the host task
    queue that stands in for `setTimeout(…, 0)`, and the construction helpers. */
module PromiseCore {

  datatype Option<T> = None | Some(value: T)

  /** A JavaScript value, as far as the promise machinery looks at it. */
  datatype Value =
    | Undefined
    | Null
    | Bool(b: bool)
    | Num(n: int)
    | Str(s: string)
    | TypeError(message: string)
    | Obj(member: ThenMember)      // a non-null object or function that is not one of our promises
    | Own(promise: Promise)      // an instance of the Promise class

  /** What reading `x.then` gives for a foreign object or function `x`. */
  datatype ThenMember =
    | NotCallable                // `then` is absent or is not a function
    | ThrowingGetter(error: Value)
    | Callable(script: seq<Call>)

  /** One thing a routine handed the two settlement callbacks does: call the
      first with a value, call the second with a reason, or throw (which ends
      the routine). Executors and foreign `then` members are such scripts;
      calls after a `Throw` are never reached. */
  datatype Call = ResolveWith(y: Value) | RejectWith(r: Value) | Throw(e: Value)

  /** What a handler does when it is invoked: return a value, return the very
      promise `then` handed back for it (`let p2 = p.then(() => p2)`), or throw. */
  datatype Outcome = Returns(x: Value) | ReturnsDerived | Throws(e: Value)

  datatype Status = Pending | Fulfilled | Rejected

  /** Which stored payload a reaction reads when it runs. */
  datatype Side = Fulfilment | Rejection

  /** A handler passed to `then`: a caller's function, one of the two
      defaults `v => v` and `err => { throw err }`, or one of the two callbacks
      the resolution procedure hands to `then` (they share a latch and settle
      `target`). */
  datatype Handler =
    | Fn(f: Value -> Outcome)
    | Identity
    | Thrower
    | OnValue(latch: Latch, target: Promise)
    | OnReason(latch: Latch, target: Promise)

  /** The task a waiter schedules, or that `then` schedules directly: run
      `handler` on the value or reason of `source` and settle `promise2` from
      what it does. */
  datatype Task = Reaction(source: Promise, side: Side, handler: Handler, promise2: Promise)

  /** The `called` flag of one resolution procedure run. */
  class Latch {
    var called: bool

    constructor ()
      ensures !called
    {
      called := false;
    }
  }

  /** The host's deferred-execution facility: a FIFO queue of tasks. */
  class EventLoop {
    var tasks: seq<Task>

    constructor ()
      ensures tasks == []
    {
      tasks := [];
    }

    /** `setTimeout(task, 0)`: the task runs after everything queued before it. */
    method Schedule(t: Task)
      modifies this
      ensures tasks == old(tasks) + [t]
    {
      tasks := tasks + [t];
    }

    /** The host takes the oldest task off the queue to run it. */
    method Dequeue() returns (t: Task)
      requires tasks != []
      modifies this
      ensures t == old(tasks[0]) && tasks == old(tasks[1..])
    {
      t := tasks[0];
      tasks := tasks[1..];
    }
  }

  /** The observable state of a promise, as a value. */
  datatype Settlement = Waiting | FulfilledWith(value: Value) | RejectedWith(reason: Value)

  /** The status guard of `resolve` and `reject`: only a waiting promise moves. */
  function Guard(s: Settlement, t: Settlement): Settlement
  {
    if s.Waiting? then t else s
  }

  /** The settlement a script of calls on `resolve` / `reject` leads to from
      `s`, with a throw caught and turned into `reject`. */
  function RunCalls(calls: seq<Call>, s: Settlement): Settlement
  {
    if calls == [] then s
    else match calls[0]
      case ResolveWith(v) => RunCalls(calls[1..], Guard(s, FulfilledWith(v)))
      case RejectWith(r) => RunCalls(calls[1..], Guard(s, RejectedWith(r)))
      case Throw(e) => Guard(s, RejectedWith(e))
  }

  /** The settlement one call causes on a waiting promise. */
  function Effect(c: Call): Settlement
  {
    match c
    case ResolveWith(v) => FulfilledWith(v)
    case RejectWith(r) => RejectedWith(r)
    case Throw(e) => RejectedWith(e)
  }

  /** Once settled, no further call changes anything. */
  lemma {:induction false} SettledIsFinal(calls: seq<Call>, s: Settlement)
    requires !s.Waiting?
    ensures RunCalls(calls, s) == s
  {
    if calls != [] && !calls[0].Throw? {
      SettledIsFinal(calls[1..], s);
    }
  }

  /** The first call an executor makes decides its promise; an executor that
      makes none leaves it pending. */
  lemma {:induction false} FirstCallDecides(calls: seq<Call>)
    ensures RunCalls(calls, Waiting) == if calls == [] then Waiting else Effect(calls[0])
  {
    if calls != [] && !calls[0].Throw? {
      SettledIsFinal(calls[1..], Effect(calls[0]));
    }
  }

  /** An executor that throws before settling rejects with what it threw; a
      throw after it settled has no effect. */
  lemma ExecutorThrow(pre: seq<Call>, e: Value, post: seq<Call>)
    requires forall i :: 0 <= i < |pre| ==> !pre[i].Throw?
    ensures RunCalls(pre + [Throw(e)] + post, Waiting)
            == if pre == [] then RejectedWith(e) else RunCalls(pre, Waiting)
  {
    var calls := pre + [Throw(e)] + post;
    FirstCallDecides(calls);
    FirstCallDecides(pre);
    if pre == [] {
      assert calls[0] == Throw(e);
    } else {
      assert calls[0] == pre[0];
    }
  }

  /** A handler given to `then`, or its default when the argument is not a function. */
  function OrDefault(h: Option<Handler>, default: Handler): Handler
  {
    if h.Some? then h.value else default
  }

  class Promise {
    var status: Status
    var value: Value
    var reason: Value
    var fulfilledCallbacks: seq<Task>
    var rejectCallbacks: seq<Task>

    ghost function State(): Settlement
      reads this
    {
      match status
      case Pending => Waiting
      case Fulfilled => FulfilledWith(value)
      case Rejected => RejectedWith(reason)
    }

    /** Only the payload matching the status is ever stored. */
    ghost predicate Consistent()
      reads this
    {
      (status == Pending ==> value == Undefined && reason == Undefined) &&
      (status == Fulfilled ==> reason == Undefined) &&
      (status == Rejected ==> value == Undefined)
    }

    /** A newly allocated promise: pending, nothing stored, nobody waiting. */
    ghost predicate Blank()
      reads this
    {
      status == Pending && value == Undefined && reason == Undefined &&
      fulfilledCallbacks == [] && rejectCallbacks == []
    }

    /** `new Promise(executor)`: the executor runs at once with this promise's
        `resolve` and `reject`; a throw from it is caught and rejects. */
    constructor (executor: seq<Call>, loop: EventLoop)
      modifies loop
      ensures State() == RunCalls(executor, Waiting) && Consistent()
      ensures fulfilledCallbacks == [] && rejectCallbacks == []
      ensures loop.tasks == old(loop.tasks)
    {
      status := Pending;
      value := Undefined;
      reason := Undefined;
      fulfilledCallbacks := [];
      rejectCallbacks := [];
      new;
      var i := 0;
      while i < |executor|
        invariant 0 <= i <= |executor|
        invariant RunCalls(executor[i..], State()) == RunCalls(executor, Waiting)
        invariant Consistent()
        invariant fulfilledCallbacks == [] && rejectCallbacks == []
        invariant loop.tasks == old(loop.tasks)
      {
        ghost var before := State();
        assert executor[i..][1..] == executor[i + 1..];
        match executor[i] {
          case ResolveWith(v) =>
            Resolve(v, loop);
          case RejectWith(r) =>
            Reject(r, loop);
          case Throw(e) =>
            // catch (e) { reject(e) }: the executor stops here
            Reject(e, loop);
            assert RunCalls(executor[i..], before) == State();
            break;
        }
        i := i + 1;
      }
    }

    /** The `resolve` closure: only a pending promise is fulfilled; then every
        fulfilled-waiter, in the order they were pushed, schedules its task. */
    method Resolve(v: Value, loop: EventLoop)
      modifies this, loop
      ensures Settles(this, Fulfilled, v)
      ensures old(Consistent()) ==> Consistent()
      ensures loop.tasks == old(loop.tasks) + SettleSchedules(this, Fulfilled)
    {
      if status == Pending {
        status := Fulfilled;
        value := v;
        var i := 0;
        while i < |fulfilledCallbacks|
          modifies loop
          invariant 0 <= i <= |fulfilledCallbacks|
          invariant loop.tasks == old(loop.tasks) + fulfilledCallbacks[..i]
        {
          loop.Schedule(fulfilledCallbacks[i]);
          i := i + 1;
        }
        assert fulfilledCallbacks[..i] == fulfilledCallbacks;
      }
    }

    /** The `reject` closure, symmetric to `Resolve`. */
    method Reject(r: Value, loop: EventLoop)
      modifies this, loop
      ensures Settles(this, Rejected, r)
      ensures old(Consistent()) ==> Consistent()
      ensures loop.tasks == old(loop.tasks) + SettleSchedules(this, Rejected)
    {
      if status == Pending {
        status := Rejected;
        reason := r;
        var i := 0;
        while i < |rejectCallbacks|
          modifies loop
          invariant 0 <= i <= |rejectCallbacks|
          invariant loop.tasks == old(loop.tasks) + rejectCallbacks[..i]
        {
          loop.Schedule(rejectCallbacks[i]);
          i := i + 1;
        }
        assert rejectCallbacks[..i] == rejectCallbacks;
      }
    }

    /** `then`: always a new pending promise; a settled promise schedules the
        matching handler, a pending one stores one waiter of each kind. No
        handler runs during the call. */
    method Then(onFulfilled: Option<Handler>, onRejected: Option<Handler>, loop: EventLoop)
      returns (promise2: Promise)
      modifies this, loop
      ensures fresh(promise2) && promise2.Blank()
      ensures Subscribes(this, OrDefault(onFulfilled, Identity), OrDefault(onRejected, Thrower), promise2)
      ensures old(Consistent()) ==> Consistent()
      ensures loop.tasks == old(loop.tasks)
        + ThenSchedules(this, OrDefault(onFulfilled, Identity), OrDefault(onRejected, Thrower), promise2)
    {
      var hf := OrDefault(onFulfilled, Identity);
      var hr := OrDefault(onRejected, Thrower);
      // new Promise((resolve, reject) => { ... }): the executor below never
      // settles promise2 itself, so it is written after the allocation
      promise2 := new Promise([], loop);
      if status == Fulfilled {
        loop.Schedule(Reaction(this, Fulfilment, hf, promise2));
      }
      if status == Rejected {
        loop.Schedule(Reaction(this, Rejection, hr, promise2));
      }
      if status == Pending {
        fulfilledCallbacks := fulfilledCallbacks + [Reaction(this, Fulfilment, hf, promise2)];
        rejectCallbacks := rejectCallbacks + [Reaction(this, Rejection, hr, promise2)];
      }
    }

    /** `Promise.deferred()`: a pending promise whose `Resolve` and `Reject`
        the caller keeps. */
    static method Deferred(loop: EventLoop) returns (promise: Promise)
      modifies loop
      ensures fresh(promise) && promise.Blank() && loop.tasks == old(loop.tasks)
    {
      promise := new Promise([], loop);
    }

    /** `Promise.resolve(value)`. */
    static method FromValue(v: Value, loop: EventLoop) returns (promise: Promise)
      modifies loop
      ensures fresh(promise) && loop.tasks == old(loop.tasks)
      ensures promise.status == Fulfilled && promise.value == v && promise.reason == Undefined
      ensures promise.fulfilledCallbacks == [] && promise.rejectCallbacks == []
    {
      promise := new Promise([ResolveWith(v)], loop);
    }

    /** `Promise.reject(reason)`. */
    static method FromReason(r: Value, loop: EventLoop) returns (promise: Promise)
      modifies loop
      ensures fresh(promise) && loop.tasks == old(loop.tasks)
      ensures promise.status == Rejected && promise.reason == r && promise.value == Undefined
      ensures promise.fulfilledCallbacks == [] && promise.rejectCallbacks == []
    {
      promise := new Promise([RejectWith(r)], loop);
    }
  }

  /** The effect of `resolve` (`st == Fulfilled`) or `reject` (`st == Rejected`)
      with `payload` on `p`: a pending promise takes the status and payload, a
      settled one keeps everything; the waiter lists are never cleared. */
  twostate predicate Settles(p: Promise, st: Status, payload: Value)
    reads p
  {
    p.fulfilledCallbacks == old(p.fulfilledCallbacks) &&
    p.rejectCallbacks == old(p.rejectCallbacks) &&
    if old(p.status) == Pending && st != Pending then
      p.status == st &&
      p.value == (if st == Fulfilled then payload else old(p.value)) &&
      p.reason == (if st == Rejected then payload else old(p.reason))
    else
      p.status == old(p.status) && p.value == old(p.value) && p.reason == old(p.reason)
  }

  /** Settlement keeps a promise's payloads consistent with its status. */
  twostate lemma SettlingKeepsConsistent(p: Promise, st: Status, payload: Value)
    requires old(p.Consistent()) && Settles(p, st, payload)
    ensures p.Consistent()
  {
  }

  /** The tasks that settlement schedules: the waiters of the matching kind,
      in push order, and only if `p` was pending. */
  twostate function SettleSchedules(p: Promise, st: Status): seq<Task>
  {
    if old(p.status) != Pending then []
    else if st == Fulfilled then old(p.fulfilledCallbacks)
    else if st == Rejected then old(p.rejectCallbacks)
    else []
  }

  /** The effect of `then(hf, hr)` returning `promise2` on `source`: its
      status and payload stay; if it was pending it gained one waiter of
      each kind at the end of its lists. */
  twostate predicate Subscribes(source: Promise, new hf: Handler, new hr: Handler, new promise2: Promise)
    reads source
  {
    source.status == old(source.status) &&
    source.value == old(source.value) &&
    source.reason == old(source.reason) &&
    if old(source.status) == Pending then
      source.fulfilledCallbacks == old(source.fulfilledCallbacks) + [Reaction(source, Fulfilment, hf, promise2)] &&
      source.rejectCallbacks == old(source.rejectCallbacks) + [Reaction(source, Rejection, hr, promise2)]
    else
      source.fulfilledCallbacks == old(source.fulfilledCallbacks) &&
      source.rejectCallbacks == old(source.rejectCallbacks)
  }

  /** The task `then(hf, hr)` schedules at once: one for a settled source, none for a pending one. */
  twostate function ThenSchedules(source: Promise, new hf: Handler, new hr: Handler, new promise2: Promise): seq<Task>
  {
    match old(source.status)
    case Fulfilled => [Reaction(source, Fulfilment, hf, promise2)]
    case Rejected => [Reaction(source, Rejection, hr, promise2)]
    case Pending => []
  }
}
