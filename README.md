# A Promises/A+ implementation, modelled in Dafny

This project models the hand-written Promises/A+ implementation in
`source/_posts/promise.js`. It covers the three-state `Promise` class with its
`resolve` / `reject` closures and waiter lists, `then`, the resolution
procedure `resolvePromise`, and the helpers `Promise.deferred`,
`Promise.resolve` and `Promise.reject`. Measured against Promises/A+, it
proves the state rules of section 2.1, the routing, ordering and freshness
rules of `then` in section 2.2, except 2.2.7.3 (see below), and the resolution
procedure of section 2.3 for thenables whose `then` calls back during the call.

## How the model is built

- `promise.dfy`, module `PromiseCore`:
  - `Value` is the JavaScript value as the code sees it. `Own(p)` is an
    instance of the class. `TypeError(message)` is the error object the
    cycle check creates; it is a separate case and never a thenable.
    `Obj(member)` is any other non-null object or function. `member` says
    what reading its `then` gives: not a function, a getter that throws, or a
    callable `then` described by a script.
  - A caller's handler is `Fn(f)` with `f: Value -> Outcome`: it returns a
    value, throws, or returns the very promise `then` gave back for it
    (`ReturnsDerived`, as in `let p2 = p.then(() => p2)`).
  - A script is a `seq<Call>`: the calls a routine makes on the two callbacks
    it was handed, ending at the first `Throw`. Executors are scripts of the
    same shape.
  - `class Promise` has the source's fields: `status`, `value`, `reason`,
    `fulfilledCallbacks`, `rejectCallbacks`.
    - Its methods `Resolve` and `Reject` are the two closures built in the
      constructor.
    - `Then` is the `then` property. `Deferred`, `FromValue` and `FromReason`
      are the static helpers.
  - A waiter is stored as the `Task` it hands to `setTimeout`.
  - `class EventLoop` is the host's FIFO task queue that `setTimeout(…, 0)`
    feeds.
  - `class Latch` is the `called` flag shared by the callbacks of one
    `resolvePromise` run.
  - `RunCalls` is the pure meaning of an executor script under the
    pending-status guard.
- `resolution.dfy`, module `ResolutionProcedure`:
  - `Resolution` is the pure verdict of `resolvePromise` for an outcome `x`.
    `Admitted` is the latch, written as a fold over a script.
  - `ResolvePromise` is the procedure as a method. Its postcondition ties its
    effect to `Resolution`.
- `tasks.dfy`, module `Tasks`: `Run` is the body of the task that `then`
  schedules. It runs the handler on the stored value or reason. A throw
  rejects the derived promise. A return value goes through `ResolvePromise`.
- `scenarios.dfy`, module `Scenarios`: whole chains built from the methods
  above. The host takes tasks off the queue one at a time.

Facts about the code that the model keeps:

- The source never empties `fulfilledCalbacks` / `rejectCalbacks` after
  settling (promise.js:58-73). The model keeps them too. Nothing runs them
  again, because `then` only pushes while pending and the status guard stops
  a second settlement.
- The constructor's `resolve` stores its argument as is, thenable or not
  (promise.js:58-64); so does `Promise.resolve` (promise.js:147-151). Only
  the value a `then` handler returns goes through the resolution procedure.
- Because of that, section 2.2.7.3 of Promises/A+ (a `then` without a
  success handler fulfils the derived promise with the same value) does not
  hold when the stored value is a thenable: the default `v => v`
  (promise.js:83) hands it to `resolvePromise` (promise.js:90-91), which
  unwraps it. `Scenarios.ThenableValueUnwrapped` shows this, and
  `ResolutionProcedure.FulfilsWithItselfIff` states that forwarding keeps the
  value exactly when it is not a thenable.

## Model

| member | source | states |
|---|---|---|
| PromiseCore.Promise.constructor | source/_posts/promise.js:50-79 | starts pending with empty waiter lists, runs the executor at once; the resulting settlement is `RunCalls(executor)`, so a throw rejects with the thrown value unless the executor already settled; only the payload of the reached status is set; no task is scheduled |
| PromiseCore.Promise.Resolve | source/_posts/promise.js:58-64 | a pending promise becomes fulfilled with `v` and its fulfilled-waiters' tasks are queued in push order, no rejected-waiter's; a settled promise, its payloads and the queue stay as they were; waiter lists are not changed; "only the payload of the current status is set" is kept |
| PromiseCore.Promise.Reject | source/_posts/promise.js:67-73 | symmetric to `Resolve`: a pending promise becomes rejected with `r` and exactly its rejected-waiters' tasks are queued, in order; otherwise nothing changes; payload consistency is kept |
| PromiseCore.Promise.Then | source/_posts/promise.js:81-135 | returns a fresh pending promise with no waiters; substitutes `v => v` / `err => { throw err }` for missing handlers; a fulfilled (rejected) source queues exactly one task for the success (failure) handler, a pending one gains one waiter of each kind; the source's status and payloads are unchanged, so no handler has run |
| PromiseCore.Promise.Deferred | source/_posts/promise.js:138-145 | a fresh pending promise whose `Resolve` / `Reject` the caller holds |
| PromiseCore.Promise.FromValue | source/_posts/promise.js:147-151 | a fresh promise fulfilled with the given value, nobody waiting |
| PromiseCore.Promise.FromReason | source/_posts/promise.js:153-157 | a fresh promise rejected with the given reason, nobody waiting |
| PromiseCore.EventLoop.Schedule | source/_posts/promise.js:88-95 | `setTimeout(task, 0)` appends the task at the end of the queue |
| PromiseCore.EventLoop.Dequeue | source/_posts/promise.js:113-120 | the host runs the oldest queued task first |
| PromiseCore.Latch.constructor | source/_posts/promise.js:21 | the latch starts down |
| PromiseCore.SettledIsFinal | source/_posts/promise.js:59-72 | once settled, no later `resolve`, `reject` or throw changes the settlement |
| PromiseCore.FirstCallDecides | source/_posts/promise.js:58-78 | the executor's first call (resolve, reject or throw) decides the promise; an executor that calls nothing leaves it pending |
| PromiseCore.ExecutorThrow | source/_posts/promise.js:74-78 | a throw before any settling call rejects with the thrown value; a throw after one has no effect |
| PromiseCore.SettlingKeepsConsistent | source/_posts/promise.js:58-73 | settling keeps "only the payload of the current status is set" |
| ResolutionProcedure.Admitted | source/_posts/promise.js:27-43 | the calls that get past the latch are calls the `then` member made |
| ResolutionProcedure.LatchStaysShut | source/_posts/promise.js:28-41 | once `called` is set, no callback and no caught throw gets through |
| ResolutionProcedure.FirstCallWins | source/_posts/promise.js:21-43 | of the success callback, the failure callback and a throw from the member, exactly the first to happen gets through |
| ResolutionProcedure.Resolution | source/_posts/promise.js:16-47 | the verdict never adopts `promise2` itself, and never fulfils with a thenable (a success value is resolved again) |
| ResolutionProcedure.LaterCallsIgnored | source/_posts/promise.js:27-43 | everything a foreign `then` does after its first call leaves the verdict unchanged |
| ResolutionProcedure.SuccessIsResolvedAgain | source/_posts/promise.js:27-30 | a thenable whose first call is the success callback with `y` resolves exactly as `y` does |
| ResolutionProcedure.FailureFirstRejects | source/_posts/promise.js:31-43 | a thenable whose first act is the failure callback or a throw rejects with that reason, whatever follows |
| ResolutionProcedure.PlainValueFulfils | source/_posts/promise.js:22-46 | a value that is not a non-null object or function with a `then` it can read and call fulfils `promise2` with the value itself |
| ResolutionProcedure.FulfilsWithItselfIff | source/_posts/promise.js:16-47 | `resolvePromise` fulfils with `x` itself if and only if `x` is not a thenable |
| ResolutionProcedure.ResolvePromise | source/_posts/promise.js:16-47 | carries out `Resolution`: `x === promise2` rejects with the "Chaining cycle" TypeError; a plain value or an object whose `then` is not a function fulfils; a throwing getter rejects; an own promise gets one pair of latch-sharing callbacks through its `then`; a foreign `then` is called once and only its first call takes effect; only `promise2`, the adopted promise and the queue change |
| Tasks.Run | source/_posts/promise.js:88-131 | the handler runs on the source's value or reason read at run time; a throw rejects promise2 with it; a return value goes through `ResolvePromise`; a resolution callback with its latch up only returns `undefined`; one with its latch down raises it and settles its target, then the derived promise is fulfilled with `undefined` |
| Tasks.RunHandler | source/_posts/promise.js:89-94 | a caller's handler or a default: a throw rejects promise2 with the thrown value and queues its rejected waiters; a return value `x` carries out `Resolution(promise2, x)`, and returning promise2 itself carries out the cycle rejection |
| Tasks.RunCallback | source/_posts/promise.js:27-35 | a resolution callback with its latch up only returns; with its latch down it raises the latch and settles its target first; then the returned `undefined` fulfils the task's own derived promise, and the tasks are queued in that order; all of this is stated for a derived promise that is neither the target nor the promise the target adopts |
| Tasks.ValueCallback | source/_posts/promise.js:27-30 | the success callback with its latch down raises the latch and carries out `Resolution(target, y)` |
| Scenarios.AddOneAfterResolve | source/_posts/promise.js:86-95 | `Promise.resolve(5).then(x => x + 1)` is pending after `then` and fulfils with 6 once the task runs |
| Scenarios.RejectedChain | source/_posts/promise.js:81-135 | building `Promise.reject('boom').then(x => x).then(null, e => e)` queues exactly one task, for the default failure handler, and leaves the middle promise pending with the last one waiting on it |
| Scenarios.RejectionPassesThrough | source/_posts/promise.js:83-84 | run to the end, that chain rejects the middle promise (the default failure handler rethrows) and fulfils the last one with 'boom' (its failure handler recovers) |
| Scenarios.TwoWaiters | source/_posts/promise.js:58-64 | `resolve(42)` on a promise with two waiters queues their two tasks in registration order and leaves both derived promises pending |
| Scenarios.WaitersRunInOrder | source/_posts/promise.js:111-131 | two `then`s on a pending promise run in registration order after `resolve(42)`, each with 42 |
| Scenarios.ReturnsPending | source/_posts/promise.js:86-95 | building `Promise.resolve(1).then(v => q)` for a pending `q` queues one task for that handler and leaves `q` untouched |
| Scenarios.AdoptsRejection | source/_posts/promise.js:22-35 | a handler returning a pending own promise that later rejects with 'x' makes the derived promise reject with 'x' |
| Scenarios.HandlerThrows | source/_posts/promise.js:89-94 | a handler that throws rejects the derived promise with the thrown value |
| Scenarios.MisbehavingThenable | source/_posts/promise.js:24-43 | a thenable that calls back several times and then throws: the first success call, itself a thenable, is unwrapped and fulfils with 7 |
| Scenarios.CycleThroughThen | source/_posts/promise.js:17-19 | `let p2 = Promise.resolve(1).then(() => p2)` rejects `p2` with the cycle TypeError once the task runs |
| Scenarios.ThenableValueUnwrapped | source/_posts/promise.js:83-91 | `Promise.resolve(thenable).then()` stores the thenable, and the derived promise fulfils with the value the thenable calls back with (1), not with the stored thenable |
| Scenarios.SelfResolution | source/_posts/promise.js:17-19 | resolving a promise with itself rejects it with the cycle TypeError |
| Scenarios.ExecutorFirstCallWins | source/_posts/promise.js:74-78 | an executor that resolves, rejects and then throws leaves the promise fulfilled with its first value |

## Left out

- setTimeout: wall-clock delay is not modelled. A task is a value in the `EventLoop` queue, and the host runs tasks in FIFO order by calling `Dequeue` and `Run`.
- Foreign thenables that keep their callbacks and call them later, from another task, are not modelled. A foreign `then` member runs its whole script during the call. The latch logic is the same for both.
- Getters are not modelled in general. Reading `x.then` either throws or gives its result; a getter's other side effects are not modelled.
- Object identity of foreign objects is not modelled: `Obj` values with equal scripts are equal. Identity only matters in the `promise2 === x` check, which can be true only for an own promise.
- JavaScript numbers are floating point; here they are unbounded integers (`Num`). Only the scenario handlers compute with them.
- Thenable chains that never settle are not modelled as an unbounded run. The unbounded recursion across tasks appears as further tasks in the queue, which a host may go on running one at a time.
- Packaging (`module.exports`) and the test-runner comments are not modelled.
- Tasks.Run: the effect of a resolution callback, with its latch up or still down, is stated only when the derived promise of that task is not itself the callback's target or the promise the target adopts. Only the procedure holds that promise, so a caller cannot make it one of those.
- Tasks.RunCallback: the same restriction as for `Tasks.Run`. Each of its postconditions assumes the task's derived promise is not the target, and the success case also assumes it is not the promise the target adopts.
- Tasks.RunHandler: a caller's handler is a pure function of its argument. It cannot settle other promises, call `then`, or queue tasks while it runs, so the queue after a task is exactly what settling or subscribing `promise2` adds. The only access a handler has to its own derived promise is returning it (`ReturnsDerived`).
