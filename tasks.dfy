/** Running one scheduled reaction: the body of the `setTimeout` callbacks in
    `then`. The handler runs on the source's stored value or reason; a throw
    rejects the derived promise, a returned value goes through the resolution
    procedure. */
module Tasks {
  import opened PromiseCore
  import opened ResolutionProcedure

  /** The payload a reaction hands to its handler, read when the task runs. */
  function Argument(t: Task): Value
    reads t.source
  {
    if t.side == Fulfilment then t.source.value else t.source.reason
  }

  /** What a handler returns or throws. The two resolution callbacks return
      `undefined`; what they do to their latch and target is in `RunNextTask`. */
  function Invoke(h: Handler, arg: Value): Outcome
  {
    match h
    case Fn(f) => f(arg)
    case Identity => Returns(arg)
    case Thrower => Throws(arg)
    case OnValue(_, _) => Returns(Undefined)
    case OnReason(_, _) => Returns(Undefined)
  }

  /** The value a returning handler hands to the resolution procedure. */
  function Returned(o: Outcome, promise2: Promise): Value
    requires !o.Throws?
  {
    if o.ReturnsDerived? then Own(promise2) else o.x
  }

  /** The objects running `t` may change besides the task queue. */
  ghost function Footprint(t: Task): set<object>
    reads t.source
  {
    var arg := Argument(t);
    var o := Invoke(t.handler, arg);
    {t.promise2} +
    (if !o.Throws? then Touched(Resolution(t.promise2, Returned(o, t.promise2))) else {}) +
    match t.handler
    case OnValue(l, target) => {l, target} + Touched(Resolution(target, arg))
    case OnReason(l, target) => {l, target}
    case _ => {}
  }

  predicate IsCallback(h: Handler)
  {
    h.OnValue? || h.OnReason?
  }

  /** Runs task `t`, which the host has taken off the queue. */
  method Run(t: Task, loop: EventLoop) returns (ghost latch: Latch?, ghost derived: Promise?)
    modifies loop, Footprint(t)
    // a caller's handler or a default: its outcome settles promise2
    ensures var rest := old(loop.tasks);
      var o := Invoke(t.handler, old(Argument(t)));
      !IsCallback(t.handler) ==>
        (o.Throws? ==>
           Settles(t.promise2, Rejected, o.e) &&
           loop.tasks == rest + SettleSchedules(t.promise2, Rejected)) &&
        (!o.Throws? ==>
           var v := Resolution(t.promise2, Returned(o, t.promise2));
           Enacted(t.promise2, v, latch, derived) &&
           loop.tasks == rest + Scheduled(t.promise2, v, latch, derived))
    // a resolution callback whose latch is already up does nothing but return
    ensures var rest := old(loop.tasks);
      IsCallback(t.handler) && old(t.handler.latch.called) && t.promise2 != t.handler.target ==>
        t.handler.latch.called && unchanged(t.handler.target) &&
        Settles(t.promise2, Fulfilled, Undefined) &&
        loop.tasks == rest + SettleSchedules(t.promise2, Fulfilled)
    // the failure callback, first to run: rejects its target
    ensures var rest := old(loop.tasks);
      t.handler.OnReason? && !old(t.handler.latch.called) && t.promise2 != t.handler.target ==>
        t.handler.latch.called &&
        Settles(t.handler.target, Rejected, old(Argument(t))) &&
        Settles(t.promise2, Fulfilled, Undefined) &&
        loop.tasks == rest + SettleSchedules(t.handler.target, Rejected) + SettleSchedules(t.promise2, Fulfilled)
    // the success callback, first to run: resolves its target with the value
    ensures var rest := old(loop.tasks);
      t.handler.OnValue? ==>
      var v := Resolution(t.handler.target, old(Argument(t)));
      !old(t.handler.latch.called) && t.promise2 != t.handler.target && t.promise2 !in Touched(v) ==>
        t.handler.latch.called &&
        Enacted(t.handler.target, v, latch, derived) &&
        Settles(t.promise2, Fulfilled, Undefined) &&
        loop.tasks == rest + Scheduled(t.handler.target, v, latch, derived) + SettleSchedules(t.promise2, Fulfilled)
  {
    latch, derived := null, null;
    var arg := if t.side == Fulfilment then t.source.value else t.source.reason;
    if IsCallback(t.handler) {
      latch, derived := RunCallback(t, arg, loop);
    } else {
      latch, derived := RunHandler(t, arg, loop);
    }
  }

  /** `try { let x = handler(arg); resolvePromise(promise2, x, ...) } catch (e) { reject(e) }`
      for a caller's handler or a default. */
  method RunHandler(t: Task, arg: Value, loop: EventLoop) returns (ghost latch: Latch?, ghost derived: Promise?)
    requires !IsCallback(t.handler)
    modifies loop, t.promise2,
      (var o := Invoke(t.handler, arg); if !o.Throws? then Touched(Resolution(t.promise2, Returned(o, t.promise2))) else {})
    ensures var o := Invoke(t.handler, arg);
      (o.Throws? ==>
         Settles(t.promise2, Rejected, o.e) &&
         loop.tasks == old(loop.tasks) + SettleSchedules(t.promise2, Rejected)) &&
      (!o.Throws? ==>
         var v := Resolution(t.promise2, Returned(o, t.promise2));
         Enacted(t.promise2, v, latch, derived) &&
         loop.tasks == old(loop.tasks) + Scheduled(t.promise2, v, latch, derived))
  {
    latch, derived := null, null;
    match t.handler {
      case Fn(f) =>
        match f(arg) {
          case Throws(e) =>
            t.promise2.Reject(e, loop);
          case Returns(x) =>
            latch, derived := ResolvePromise(t.promise2, x, loop);
          case ReturnsDerived =>
            // the handler returned promise2 itself
            latch, derived := ResolvePromise(t.promise2, Own(t.promise2), loop);
        }
      case Identity =>
        // v => v
        latch, derived := ResolvePromise(t.promise2, arg, loop);
      case Thrower =>
        // err => { throw err }
        t.promise2.Reject(arg, loop);
    }
  }

  /** One of the two callbacks `resolvePromise` handed to an own promise's
      `then`: `y => { if (called) return; called = true; resolvePromise(...) }`
      or `e => { if (called) return; called = true; reject(e) }`. It returns
      `undefined`, which then fulfils the task's own derived promise. */
  method RunCallback(t: Task, arg: Value, loop: EventLoop) returns (ghost latch: Latch?, ghost derived: Promise?)
    requires IsCallback(t.handler)
    modifies loop, t.promise2, t.handler.latch, t.handler.target,
      if t.handler.OnValue? then Touched(Resolution(t.handler.target, arg)) else {}
    ensures old(t.handler.latch.called) && t.promise2 != t.handler.target ==>
      t.handler.latch.called && unchanged(t.handler.target) &&
      Settles(t.promise2, Fulfilled, Undefined) &&
      loop.tasks == old(loop.tasks) + SettleSchedules(t.promise2, Fulfilled)
    ensures t.handler.OnReason? && !old(t.handler.latch.called) && t.promise2 != t.handler.target ==>
      t.handler.latch.called &&
      Settles(t.handler.target, Rejected, arg) &&
      Settles(t.promise2, Fulfilled, Undefined) &&
      loop.tasks == old(loop.tasks) + SettleSchedules(t.handler.target, Rejected) + SettleSchedules(t.promise2, Fulfilled)
    ensures t.handler.OnValue? ==>
      var v := Resolution(t.handler.target, arg);
      !old(t.handler.latch.called) && t.promise2 != t.handler.target && t.promise2 !in Touched(v) ==>
        t.handler.latch.called &&
        Enacted(t.handler.target, v, latch, derived) &&
        Settles(t.promise2, Fulfilled, Undefined) &&
        loop.tasks == old(loop.tasks) + Scheduled(t.handler.target, v, latch, derived) + SettleSchedules(t.promise2, Fulfilled)
  {
    latch, derived := null, null;
    var l, target := t.handler.latch, t.handler.target;
    // the callback returns `undefined`, which is not a thenable, so
    // `resolvePromise(promise2, undefined)` fulfils promise2 with it
    PlainValueFulfils(t.promise2, Undefined);
    if l.called {
      t.promise2.Resolve(Undefined, loop);
    } else if t.handler.OnReason? {
      l.called := true;
      target.Reject(arg, loop);
      t.promise2.Resolve(Undefined, loop);
    } else {
      ghost var v := Resolution(target, arg);
      assert allocated(v);
      latch, derived := ValueCallback(l, target, arg, loop);
      label settled:
      t.promise2.Resolve(Undefined, loop);
      assert t.promise2 != target && t.promise2 !in Touched(v) ==>
        unchanged@settled(target) && unchanged@settled(Touched(v)) &&
        (latch != null ==> unchanged@settled(latch)) && (derived != null ==> unchanged@settled(derived));
    }
  }

  /** The success callback with its latch down: `called = true;
      resolvePromise(promise2, y, resolve, reject)`. */
  method ValueCallback(l: Latch, target: Promise, y: Value, loop: EventLoop)
    returns (ghost latch: Latch?, ghost derived: Promise?)
    requires !l.called
    modifies l, loop, target, Touched(Resolution(target, y))
    ensures l.called
    ensures Enacted(target, Resolution(target, y), latch, derived)
    ensures loop.tasks == old(loop.tasks) + Scheduled(target, Resolution(target, y), latch, derived)
    ensures latch != null ==> fresh(latch)
    ensures derived != null ==> fresh(derived)
  {
    l.called := true;
    latch, derived := ResolvePromise(target, y, loop);
  }
}
