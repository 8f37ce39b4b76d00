/** The promise resolution procedure `resolvePromise` of `promise.js`: the
    verdict it reaches for an outcome `x` (a pure function), the latch that lets
    only the first callback of a `then` member count, and the procedure itself
    as a method that settles `promise2` or subscribes to a thenable. */
module ResolutionProcedure {
  import opened PromiseCore

  /** What `resolvePromise(promise2, x)` decides: fulfil or reject `promise2`,
      subscribe to one of our own promises `thenable` (its callbacks settle
      `promise2` later), or nothing (a foreign `then` that called back nobody). */
  datatype Verdict = Fulfil(value: Value) | Reject(reason: Value) | Adopt(thenable: Promise) | Undecided

  const CycleError: Value := TypeError("Chaining cycle detected for promise #<Promise>")

  /** A value whose `then` the procedure reads and would call: one of our
      promises, or a foreign object or function whose `then` is callable or
      whose getter throws. */
  predicate IsThenable(x: Value)
  {
    x.Own? || (x.Obj? && !x.member.NotCallable?)
  }

  /** The calls of a foreign `then` member that get past the shared latch
      `called`: each callback, and the `catch` around the call, returns at
      once when the latch is up and raises it otherwise; a throw ends the
      member. */
  function Admitted(calls: seq<Call>, called: bool): (r: seq<Call>)
    ensures forall c :: c in r ==> c in calls
  {
    if calls == [] then []
    else
      var first := if called then [] else [calls[0]];
      first + (if calls[0].Throw? then [] else Admitted(calls[1..], true))
  }

  /** Once the latch is up, no call gets through. */
  lemma {:induction false} LatchStaysShut(calls: seq<Call>)
    ensures Admitted(calls, true) == []
  {
    if calls != [] && !calls[0].Throw? {
      LatchStaysShut(calls[1..]);
    }
  }

  /** First call wins: of everything a `then` member does, exactly its first
      call (success, failure or throw) gets through. */
  lemma {:induction false} FirstCallWins(calls: seq<Call>)
    ensures Admitted(calls, false) == if calls == [] then [] else [calls[0]]
  {
    if calls != [] && !calls[0].Throw? {
      LatchStaysShut(calls[1..]);
    }
  }

  /** The verdict of `resolvePromise(promise2, x)`. A success value `y`
      handed to a foreign `then`'s first callback is resolved again, not
      fulfilled as is. */
  function Resolution(promise2: Promise, x: Value): (r: Verdict)
    ensures r.Adopt? ==> r.thenable != promise2
    ensures r.Fulfil? ==> !IsThenable(r.value)
    decreases x
  {
    if x == Own(promise2) then Reject(CycleError)
    else match x
      case Own(q) => Adopt(q)
      case Obj(member) =>
        (match member
         case NotCallable => Fulfil(x)
         case ThrowingGetter(e) => Reject(e)
         case Callable(script) =>
           var admitted := Admitted(script, false);
           if admitted == [] then Undecided
           else match admitted[0]
             case ResolveWith(y) => Resolution(promise2, y)
             case RejectWith(r) => Reject(r)
             case Throw(e) => Reject(e))
      case _ => Fulfil(x)
  }

  /** Everything a foreign `then` does after its first call is ignored. */
  lemma {:induction false} LaterCallsIgnored(promise2: Promise, c: Call, rest: seq<Call>)
    ensures Resolution(promise2, Obj(Callable([c] + rest))) == Resolution(promise2, Obj(Callable([c])))
  {
    FirstCallWins([c] + rest);
    FirstCallWins([c]);
  }

  /** A thenable that first calls back with `y` resolves exactly as `y` does. */
  lemma {:induction false} SuccessIsResolvedAgain(promise2: Promise, y: Value, rest: seq<Call>)
    ensures Resolution(promise2, Obj(Callable([ResolveWith(y)] + rest))) == Resolution(promise2, y)
  {
    FirstCallWins([ResolveWith(y)] + rest);
  }

  /** A thenable whose first act is a throw or a failure call rejects with
      that reason, whatever it does afterwards. */
  lemma {:induction false} FailureFirstRejects(promise2: Promise, c: Call, rest: seq<Call>)
    requires !c.ResolveWith?
    ensures Resolution(promise2, Obj(Callable([c] + rest)))
            == Reject(if c.RejectWith? then c.r else c.e)
  {
    FirstCallWins([c] + rest);
  }

  /** A value that is not a thenable fulfils `promise2` with itself. */
  lemma PlainValueFulfils(promise2: Promise, x: Value)
    requires !IsThenable(x)
    ensures Resolution(promise2, x) == Fulfil(x)
  {
  }

  /** `promise2` is fulfilled with `x` itself exactly when `x` is not a
      thenable: a thenable is always unwrapped, never stored. */
  lemma FulfilsWithItselfIff(promise2: Promise, x: Value)
    ensures Resolution(promise2, x) == Fulfil(x) <==> !IsThenable(x)
  {
    if !IsThenable(x) {
      PlainValueFulfils(promise2, x);
    }
  }

  /** The objects besides `promise2` and the task queue that a verdict changes. */
  function Touched(v: Verdict): set<object>
  {
    if v.Adopt? then {v.thenable} else {}
  }

  /** The effect of carrying out verdict `v` on `promise2` and the thenable it
      adopts; `latch` and `derived` are the fresh latch and the promise the
      own `then` returned when `v` adopts. */
  twostate predicate Enacted(promise2: Promise, v: Verdict, new latch: Latch?, new derived: Promise?)
    reads promise2, Touched(v), latch, derived
  {
    match v
    case Fulfil(x) => Settles(promise2, Fulfilled, x)
    case Reject(r) => Settles(promise2, Rejected, r)
    case Adopt(q) =>
      unchanged(promise2) && latch != null && derived != null &&
      fresh(latch) && !latch.called && fresh(derived) && derived.Blank() &&
      Subscribes(q, OnValue(latch, promise2), OnReason(latch, promise2), derived)
    case Undecided => unchanged(promise2)
  }

  /** The tasks carrying out verdict `v` schedules at once. */
  twostate function Scheduled(promise2: Promise, v: Verdict, new latch: Latch?, new derived: Promise?): seq<Task>
  {
    match v
    case Fulfil(_) => SettleSchedules(promise2, Fulfilled)
    case Reject(_) => SettleSchedules(promise2, Rejected)
    case Adopt(q) =>
      if latch != null && derived != null
      then ThenSchedules(q, OnValue(latch, promise2), OnReason(latch, promise2), derived)
      else []
    case Undecided => []
  }

  /** `resolvePromise(promise2, x, resolve, reject)`, where `resolve` and
      `reject` are `promise2`'s own. */
  method ResolvePromise(promise2: Promise, x: Value, loop: EventLoop)
    returns (ghost latch: Latch?, ghost derived: Promise?)
    modifies promise2, loop, Touched(Resolution(promise2, x))
    ensures Enacted(promise2, Resolution(promise2, x), latch, derived)
    ensures loop.tasks == old(loop.tasks) + Scheduled(promise2, Resolution(promise2, x), latch, derived)
    ensures latch != null ==> fresh(latch)
    ensures derived != null ==> fresh(derived)
    decreases x
  {
    latch, derived := null, null;
    if x == Own(promise2) {
      promise2.Reject(CycleError, loop);
      return;
    }
    var called := new Latch();
    match x {
      case Own(q) =>
        // our own `then` is a function, and calling it cannot throw
        var promise3 := q.Then(Some(OnValue(called, promise2)), Some(OnReason(called, promise2)), loop);
        latch, derived := called, promise3;
      case Obj(member) =>
        match member {
          case NotCallable =>
            promise2.Resolve(x, loop);
          case ThrowingGetter(e) =>
            // catch (e): the latch is still down
            called.called := true;
            promise2.Reject(e, loop);
          case Callable(script) =>
            ghost var v := Resolution(promise2, x);
            assert old(allocated(v));
            FirstCallWins(script);
            // then.call(x, y => ..., e => ...): the member runs its script
            var i := 0;
            while i < |script|
              invariant 0 <= i <= |script|
              invariant called.called <==> i > 0
              invariant i == 0 ==> unchanged(promise2, loop) && unchanged(Touched(v)) && latch == null
              invariant i > 0 ==> Enacted(promise2, v, latch, derived)
              invariant i > 0 ==> loop.tasks == old(loop.tasks) + Scheduled(promise2, v, latch, derived)
              invariant latch != null ==> fresh(latch)
              invariant derived != null ==> fresh(derived)
            {
              match script[i] {
                case ResolveWith(y) =>
                  if !called.called {
                    called.called := true;
                    latch, derived := ResolvePromise(promise2, y, loop);
                  }
                case RejectWith(r) =>
                  if !called.called {
                    called.called := true;
                    promise2.Reject(r, loop);
                  }
                case Throw(e) =>
                  // catch (e) around then.call
                  if !called.called {
                    called.called := true;
                    promise2.Reject(e, loop);
                  }
                  i := i + 1;
                  break;
              }
              i := i + 1;
            }
        }
      case _ =>
        promise2.Resolve(x, loop);
    }
  }
}
