/** The APromise class of src/index.js, step by step as the source does it.
    A `Realm` holds the private record of every APromise, by identity, and the
    host's FIFO of scheduled dispatches (the role `nextTick` plays). Each method
    is proved to leave the realm exactly as the matching function of
    `Semantics` says. */
module APromise {
  import opened JsValues
  import opened Util
  import opened Semantics
  import opened Properties

  /** The two functions `resolve` hands to `ensureOnceCalled` for a foreign `then`. */
  datatype Wrapped = ResolvePromise | RejectPromise

  class Realm {
    /** `p[PRIVATE]` for every APromise `p`, indexed by identity. */
    var promises: seq<Record>
    /** Dispatches scheduled with `nextTick` and not yet run, oldest first. */
    var tasks: seq<Pid>

    function View(): Config
      reads this
    {
      Config(promises, tasks)
    }

    ghost predicate Valid()
      reads this
    {
      WellFormed(View())
    }

    constructor ()
      ensures Valid() && View() == Config([], [])
    {
      promises, tasks := [], [];
    }

    // -------------------------------------------------------------------------
    // Settlement setters

    /** The closure `getFulfill(p)` returns while `p` is pending (src/index.js:27-31). */
    method Fulfill(p: Pid, value: JsValue)
      requires Valid() && p < |promises| && ValueOk(|promises|, value)
      modifies this
      ensures Valid() && View() == Settle(old(View()), p, Fulfilled, value)
    {
      promises := promises[p := promises[p].(status := Fulfilled, value := value)];
      tasks := tasks + [p];
    }

    /** The closure `getReject(p)` returns while `p` is pending (src/index.js:47-51). */
    method Reject(p: Pid, reason: JsValue)
      requires Valid() && p < |promises| && ValueOk(|promises|, reason)
      modifies this
      ensures Valid() && View() == Settle(old(View()), p, Rejected, reason)
    {
      promises := promises[p := promises[p].(status := Rejected, reason := reason)];
      tasks := tasks + [p];
    }

    /** `getFulfill(p)`: `NOOP` unless `p` is pending when it is asked for. */
    method GetFulfill(p: Pid) returns (cb: Callback)
      requires p < |promises|
      ensures cb == GetSetter(View(), p, Fulfilled)
      ensures promises[p].status == Pending ==> cb == FulfillSetter(p)
    {
      if promises[p].status != Pending {
        return Noop;
      }
      cb := FulfillSetter(p);
    }

    /** `getReject(p)`: `NOOP` unless `p` is pending when it is asked for. */
    method GetReject(p: Pid) returns (cb: Callback)
      requires p < |promises|
      ensures cb == GetSetter(View(), p, Rejected)
      ensures promises[p].status == Pending ==> cb == RejectSetter(p)
    {
      if promises[p].status != Pending {
        return Noop;
      }
      cb := RejectSetter(p);
    }

    /** Calling a callback with one argument. */
    method Call(cb: Callback, arg: JsValue) returns (out: Outcome)
      requires Valid() && CallbackOk(|promises|, cb) && ValueOk(|promises|, arg)
      modifies this
      ensures Valid() && (View(), out) == Invoke(old(View()), cb, arg)
    {
      match cb
      case Js(f) =>
        out := CallOne(f, arg);
      case FulfillSetter(q) =>
        Fulfill(q, arg);
        out := Normal(Undefined);
      case RejectSetter(q) =>
        Reject(q, arg);
        out := Normal(Undefined);
      case Noop =>
        out := Normal(Undefined);
    }

    // -------------------------------------------------------------------------
    // The resolution procedure

    /** `resolve(t, x)` (src/index.js:57-135). */
    method Resolve(t: Pid, x: JsValue)
      requires Valid() && t < |promises| && ValueOk(|promises|, x)
      modifies this
      ensures Valid() && View() == Semantics.Resolve(old(View()), t, x)
      decreases x
    {
      if x == PromiseRef(t) {
        var reject := GetReject(t);
        var _ := Call(reject, SelfResolutionError);
      } else if x.PromiseRef? {
        var q := x.id;
        if promises[q].status == Pending {
          var fulfill := GetFulfill(t);
          var reject := GetReject(t);
          var _ := Then(q, fulfill, reject);
        } else if promises[q].status == Fulfilled {
          var fulfill := GetFulfill(t);
          var _ := Call(fulfill, promises[q].value);
        } else {
          var reject := GetReject(t);
          var _ := Call(reject, promises[q].reason);
        }
      } else if IsObject(x) || IsFunction(x) {
        // then = x.then
        var prop := if x.Error? then Yields(Undefined) else x.thenProp;
        if prop.Throws? {
          var reject := GetReject(t);
          var _ := Call(reject, prop.error);
          return;
        }
        var thenFn := prop.value;
        if IsFunction(thenFn) {
          ResolveThenable(t, x, thenFn);
        } else {
          var fulfill := GetFulfill(t);
          var _ := Call(fulfill, x);
        }
      } else {
        var fulfill := GetFulfill(t);
        var _ := Call(fulfill, x);
      }
    }

    /** `then.call(x, resolvePromise, rejectPromise)` behind `ensureOnceCalled`,
        and the `catch` around it (src/index.js:97-124). */
    method ResolveThenable(t: Pid, x: JsValue, thenFn: JsValue)
      requires Valid() && t < |promises| && ValueOk(|promises|, x)
      requires (x.Object? || x.Function?) && IsThenableCandidate(x)
      requires x.thenProp == Yields(thenFn) && IsFunction(thenFn)
      modifies this
      ensures Valid() && View() == Semantics.Resolve(old(View()), t, x)
      decreases x, 0
    {
      ghost var s0 := View();
      assert ValueOk(|promises|, thenFn);
      var guard := new OnceGuard([ResolvePromise, RejectPromise]);
      var sc := if thenFn.Function? then thenFn.script else Script([], Throw(NotCallableError));
      assert forall k :: 0 <= k < |sc.calls| ==> ValueOk(|promises|, sc.calls[k].arg);
      var i := 0;
      while i < |sc.calls|
        invariant 0 <= i <= |sc.calls|
        invariant guard.wrapped == [ResolvePromise, RejectPromise]
        invariant guard.isCalled <==> i > 0
        invariant i == 0 ==> View() == s0
        invariant i > 0 ==> View() == Semantics.Resolve(s0, t, x)
        invariant Valid() && |promises| >= |s0.promises|
      {
        var call := sc.calls[i];
        var inv := guard.Invoke(if call.CallFirst? then 0 else 1, call.arg);
        if inv.Run? {
          assert i == 0 && inv.args == call.arg && thenFn.Function?;
          if inv.func == ResolvePromise {
            assert x == Object(x.tag, Yields(thenFn)) || x == Function(x.tag, Yields(thenFn), x.onCall, x.script);
            assert Decide(s0, t, x) == Decide(s0, t, call.arg);
            Resolve(t, inv.args);
          } else {
            assert Decide(s0, t, x) == Settles(Rejected, call.arg);
            var reject := GetReject(t);
            var _ := Call(reject, inv.args);
          }
        }
        i := i + 1;
      }
      if |sc.calls| == 0 {
        assert Decide(s0, t, x) == (if sc.exit.Throw? then Settles(Rejected, sc.exit.error) else Unchanged);
      }
      if sc.exit.Throw? && !guard.isCalled {
        var reject := GetReject(t);
        var _ := Call(reject, sc.exit.error);
      }
    }

    // -------------------------------------------------------------------------
    // Construction, then, and the factories

    /** The constructor after its `isFunction` check (src/index.js:213-225): a
        pending private record, then the resolver run with the setters made
        at that moment. A throw from the resolver escapes as `Threw`. */
    method Construct(resolver: Script) returns (c: Construction)
      requires Valid()
      requires forall i :: 0 <= i < |resolver.calls| ==> ValueOk(|promises|, resolver.calls[i].arg)
      modifies this
      ensures Valid() && (View(), c) == Semantics.Construct(old(View()), resolver)
    {
      ghost var s0 := View();
      var p := |promises|;
      promises := promises + [NewRecord];
      assert View() == Allocate(s0);
      ghost var s1 := View();
      forall i | 0 <= i < |resolver.calls| ensures ValueOk(p + 1, resolver.calls[i].arg) {
        ValueOkGrows(p, p + 1, resolver.calls[i].arg);
      }
      var fulfill := GetFulfill(p);
      var reject := GetReject(p);
      var calls := resolver.calls;
      var i := 0;
      while i < |calls|
        invariant 0 <= i <= |calls|
        invariant Valid() && |promises| == p + 1
        invariant RunResolverCalls(View(), p, calls[i..]) == RunResolverCalls(s1, p, calls)
      {
        assert calls[i..][1..] == calls[i + 1..];
        var _ := Call(if calls[i].CallFirst? then fulfill else reject, calls[i].arg);
        i := i + 1;
      }
      c := if resolver.exit.Throw? then Threw(resolver.exit.error) else Created(p);
    }

    /** `new APromise(resolver)` (src/index.js:207-226). */
    method New(resolver: JsValue) returns (c: Construction)
      requires Valid() && ValueOk(|promises|, resolver)
      modifies this
      ensures Valid() && (View(), c) == Semantics.New(old(View()), resolver)
    {
      if !IsFunction(resolver) {
        return Threw(ResolverError);
      }
      c := Construct(CallTwo(resolver));
    }

    /** `p.then(onFulfilled, onRejected)` (src/index.js:228-251). */
    method Then(p: Pid, onFulfilled: Callback, onRejected: Callback) returns (d: Pid)
      requires Valid() && p < |promises| && CallbackOk(|promises|, onFulfilled) && CallbackOk(|promises|, onRejected)
      modifies this
      ensures Valid() && (View(), d) == Semantics.Then(old(View()), p, onFulfilled, onRejected)
    {
      var validFulfilled := Validate(onFulfilled);
      var validRejected := Validate(onRejected);
      var c := Construct(Inert);
      d := c.id;
      if promises[p].status != Pending {
        tasks := tasks + [p];
      }
      var context := Entry(validFulfilled, validRejected, d);
      promises := promises[p := promises[p].(queue := promises[p].queue + [context])];
      ThenEffect(old(View()), p, onFulfilled, onRejected);
    }

    /** `APromise.resolved(v)` (src/index.js:265-267). */
    method ResolvedPromise(v: JsValue) returns (c: Construction)
      requires Valid() && ValueOk(|promises|, v)
      modifies this
      ensures Valid() && (View(), c) == Semantics.ResolvedPromise(old(View()), v)
    {
      c := Construct(Script([CallFirst(v)], Return));
    }

    /** `APromise.rejected(r)` (src/index.js:272-274). */
    method RejectedPromise(reason: JsValue) returns (c: Construction)
      requires Valid() && ValueOk(|promises|, reason)
      modifies this
      ensures Valid() && (View(), c) == Semantics.RejectedPromise(old(View()), reason)
    {
      c := Construct(Script([CallSecond(reason)], Return));
    }

    /** `APromise.deferred()` (src/index.js:276-277): the promise it exposes. */
    method Deferred() returns (p: Pid)
      requires Valid()
      modifies this
      ensures Valid() && (View(), Created(p)) == Semantics.Construct(old(View()), Inert)
    {
      var c := Construct(Inert);
      p := c.id;
    }

    /** The `resolve` of a deferred (src/index.js:280-282). */
    method DeferredResolve(p: Pid, v: JsValue)
      requires Valid() && p < |promises| && ValueOk(|promises|, v)
      modifies this
      ensures Valid() && View() == Semantics.DeferredResolve(old(View()), p, v)
    {
      var fulfill := GetFulfill(p);
      var _ := Call(fulfill, v);
    }

    /** The `reject` of a deferred (src/index.js:283-285). */
    method DeferredReject(p: Pid, reason: JsValue)
      requires Valid() && p < |promises| && ValueOk(|promises|, reason)
      modifies this
      ensures Valid() && View() == Semantics.DeferredReject(old(View()), p, reason)
    {
      var reject := GetReject(p);
      var _ := Call(reject, reason);
    }

    // -------------------------------------------------------------------------
    // The dispatcher

    /** One callback run inside the `try` of the dispatch loop. */
    method HandleCallback(cb: Callback, arg: JsValue, d: Pid)
      requires Valid() && CallbackOk(|promises|, cb) && ValueOk(|promises|, arg) && d < |promises|
      modifies this
      ensures Valid() && View() == Handle(old(View()), cb, arg, d)
    {
      ghost var s0 := View();
      var out := Call(cb, arg);
      if cb.Js? { ValueOk1(|s0.promises|, cb.f, arg); }
      if out.Abrupt? {
        var reject := GetReject(d);
        var _ := Call(reject, out.error);
      } else if !out.value.Undefined? {
        Resolve(d, out.value);
      }
    }

    /** The body of the dispatch loop for one context (src/index.js:152-197). */
    method RunContext(status: Status, value: JsValue, reason: JsValue, e: Entry)
      requires Valid() && EntryOk(|promises|, e) && ValueOk(|promises|, value) && ValueOk(|promises|, reason)
      modifies this
      ensures Valid() && View() == RunEntry(old(View()), status, value, reason, e)
    {
      ghost var s0 := View();
      if status == Fulfilled {
        if e.onFulfilled.Some? {
          assert RunEntry(s0, status, value, reason, e) == Handle(s0, e.onFulfilled.value, value, e.downstream);
          HandleCallback(e.onFulfilled.value, value, e.downstream);
        } else {
          assert RunEntry(s0, status, value, reason, e) == SettleIfPending(s0, e.downstream, Fulfilled, value);
          var fulfill := GetFulfill(e.downstream);
          var _ := Call(fulfill, value);
        }
      } else if status == Rejected {
        if e.onRejected.Some? {
          assert RunEntry(s0, status, value, reason, e) == Handle(s0, e.onRejected.value, reason, e.downstream);
          HandleCallback(e.onRejected.value, reason, e.downstream);
        } else {
          assert RunEntry(s0, status, value, reason, e) == SettleIfPending(s0, e.downstream, Rejected, reason);
          var reject := GetReject(e.downstream);
          var _ := Call(reject, reason);
        }
      }
    }

    /** `executeContextQueue(p)()` (src/index.js:144-202): the loop walks the
        live queue, then the queue is reset. */
    method ExecuteContextQueue(p: Pid)
      requires Valid() && p < |promises|
      modifies this
      ensures Valid() && View() == Dispatch(old(View()), p)
    {
      ghost var s0 := View();
      var status, value, reason := promises[p].status, promises[p].value, promises[p].reason;
      ghost var q0 := promises[p].queue;
      var i := 0;
      while i < |promises[p].queue|
        invariant Valid() && p < |promises| && |promises| >= |s0.promises|
        invariant 0 <= i <= |q0|
        invariant promises[p].queue == q0
        invariant status != Pending ==> promises[p].status != Pending
        invariant View() == RunEntries(s0, status, value, reason, q0[..i])
      {
        var n := |promises|;
        EntriesOkGrow(|s0.promises|, n, q0);
        ValueOkGrows(|s0.promises|, n, value);
        ValueOkGrows(|s0.promises|, n, reason);
        ghost var before := View();
        var context := promises[p].queue[i];
        RunContext(status, value, reason, context);
        RunEntryKeepsQueue(before, status, value, reason, context, p);
        assert q0[..i + 1][..i] == q0[..i];
        i := i + 1;
      }
      assert q0[..i] == q0;
      promises := promises[p := promises[p].(queue := [])];
    }

    /** The host running the oldest scheduled dispatch. */
    method Tick()
      requires Valid()
      modifies this
      ensures Valid() && View() == Semantics.Tick(old(View()))
    {
      if tasks != [] {
        var p := tasks[0];
        tasks := tasks[1..];
        ExecuteContextQueue(p);
      }
    }
  }
}
