/** The APromise core of src/index.js as functions on a snapshot of every
    promise's private record and of the host's task queue. A promise is named
    by its identity, an index into the table of private records. */
module Semantics {
  import opened JsValues
  import opened Util

  type Pid = nat

  datatype Status = Pending | Fulfilled | Rejected

  datatype Option<T> = None | Some(value: T)

  /** A value handed to `then` as a callback: a script value, or one of the
      closures the module builds itself (the setters and `NOOP`). The source
      hands the setters to a resolver or a foreign `then` as arguments; in
      the model that code reaches them only through its script, whose calls
      name the first or the second argument. */
  datatype Callback = Js(f: JsValue) | FulfillSetter(target: Pid) | RejectSetter(target: Pid) | Noop

  /** A `then` context: the callbacks that passed `isFunction` (`None` is the
      falsy marker stored for one that did not) and the returned promise. */
  datatype Entry = Entry(onFulfilled: Option<Callback>, onRejected: Option<Callback>, downstream: Pid)

  /** The private record of one APromise. */
  datatype Record = Record(status: Status, value: JsValue, reason: JsValue, queue: seq<Entry>)

  /** All private records, by identity, and the FIFO of scheduled dispatches
      (each names the promise whose queue it will execute). */
  datatype Config = Config(promises: seq<Record>, tasks: seq<Pid>)

  /** What a constructor call ends with. */
  datatype Construction = Created(id: Pid) | Threw(error: JsValue)

  const NewRecord := Record(Pending, Undefined, Undefined, [])
  const SelfResolutionError := Error("TypeError", "the returned value cannot be the same with current promise")
  const ResolverError := Error("Error", "APromise resolver must be a function")

  // ---------------------------------------------------------------------------
  // Well-formedness: every identity a configuration mentions exists.

  predicate ValueOk(n: nat, v: JsValue)
    decreases v
  {
    match v
    case PromiseRef(id) => id < n
    case Object(_, prop) =>
      (prop.Throws? ==> ValueOk(n, prop.error)) && (prop.Yields? ==> ValueOk(n, prop.value))
    case Function(_, prop, c, sc) =>
      (prop.Throws? ==> ValueOk(n, prop.error)) && (prop.Yields? ==> ValueOk(n, prop.value)) &&
      (c.Returns? ==> ValueOk(n, c.result)) && (c.Raises? ==> ValueOk(n, c.error)) &&
      (forall i :: 0 <= i < |sc.calls| ==> ValueOk(n, sc.calls[i].arg)) &&
      (sc.exit.Throw? ==> ValueOk(n, sc.exit.error))
    case _ => true
  }

  predicate CallbackOk(n: nat, cb: Callback) {
    match cb
    case Js(f) => ValueOk(n, f)
    case FulfillSetter(q) => q < n
    case RejectSetter(q) => q < n
    case Noop => true
  }

  predicate EntryOk(n: nat, e: Entry) {
    e.downstream < n &&
    (e.onFulfilled.Some? ==> CallbackOk(n, e.onFulfilled.value)) &&
    (e.onRejected.Some? ==> CallbackOk(n, e.onRejected.value))
  }

  predicate EntriesOk(n: nat, es: seq<Entry>) {
    forall i :: 0 <= i < |es| ==> EntryOk(n, es[i])
  }

  predicate RecordOk(n: nat, r: Record) {
    ValueOk(n, r.value) && ValueOk(n, r.reason) && EntriesOk(n, r.queue)
  }

  predicate WellFormed(s: Config) {
    (forall i :: 0 <= i < |s.tasks| ==> s.tasks[i] < |s.promises|) &&
    (forall p :: 0 <= p < |s.promises| ==> RecordOk(|s.promises|, s.promises[p]))
  }

  /** Every identity that exists in a configuration still exists once more
      promises have been created. */
  lemma {:induction false} ValueOkGrows(n: nat, m: nat, v: JsValue)
    requires n <= m && ValueOk(n, v)
    ensures ValueOk(m, v)
    decreases v
  {
    match v
    case PromiseRef(_) =>
    case Object(_, prop) =>
      if prop.Throws? { ValueOkGrows(n, m, prop.error); } else { ValueOkGrows(n, m, prop.value); }
    case Function(_, prop, c, sc) =>
      if prop.Throws? { ValueOkGrows(n, m, prop.error); } else { ValueOkGrows(n, m, prop.value); }
      if c.Returns? { ValueOkGrows(n, m, c.result); }
      if c.Raises? { ValueOkGrows(n, m, c.error); }
      forall i | 0 <= i < |sc.calls| ensures ValueOk(m, sc.calls[i].arg) {
        ValueOkGrows(n, m, sc.calls[i].arg);
      }
      if sc.exit.Throw? { ValueOkGrows(n, m, sc.exit.error); }
    case _ =>
  }

  lemma EntriesOkGrow(n: nat, m: nat, es: seq<Entry>)
    requires n <= m && EntriesOk(n, es)
    ensures EntriesOk(m, es)
  {
    forall i | 0 <= i < |es| ensures EntryOk(m, es[i]) {
      var e := es[i];
      if e.onFulfilled.Some? && e.onFulfilled.value.Js? { ValueOkGrows(n, m, e.onFulfilled.value.f); }
      if e.onRejected.Some? && e.onRejected.value.Js? { ValueOkGrows(n, m, e.onRejected.value.f); }
    }
  }

  lemma RecordOkGrows(n: nat, m: nat, r: Record)
    requires n <= m && RecordOk(n, r)
    ensures RecordOk(m, r)
  {
    ValueOkGrows(n, m, r.value);
    ValueOkGrows(n, m, r.reason);
    EntriesOkGrow(n, m, r.queue);
  }

  /** Appending a fresh pending record keeps a configuration well-formed. */
  function Allocate(s: Config): (r: Config)
    requires WellFormed(s)
    ensures WellFormed(r)
    ensures r.promises == s.promises + [NewRecord] && r.tasks == s.tasks
  {
    var n := |s.promises|;
    var r := Config(s.promises + [NewRecord], s.tasks);
    forall p | 0 <= p < n + 1 ensures RecordOk(n + 1, r.promises[p]) {
      if p < n { RecordOkGrows(n, n + 1, s.promises[p]); }
    }
    r
  }

  // ---------------------------------------------------------------------------
  // Settlement setters (getFulfill, getReject).

  /** A payload status: `Fulfilled` stores into `value`, `Rejected` into `reason`. */
  type Settled = st: Status | st != Pending witness Fulfilled

  /** Calling a setter closure: status and payload are overwritten without any
      check, and one dispatch of the promise is scheduled. */
  function Settle(s: Config, p: Pid, st: Settled, payload: JsValue): (r: Config)
    requires WellFormed(s) && p < |s.promises| && ValueOk(|s.promises|, payload)
    ensures WellFormed(r) && |r.promises| == |s.promises|
    ensures r.promises[p].status == st && r.promises[p].queue == s.promises[p].queue
    ensures st == Fulfilled ==> r.promises[p].value == payload && r.promises[p].reason == s.promises[p].reason
    ensures st == Rejected ==> r.promises[p].reason == payload && r.promises[p].value == s.promises[p].value
    ensures forall q :: 0 <= q < |s.promises| && q != p ==> r.promises[q] == s.promises[q]
    ensures r.tasks == s.tasks + [p]
  {
    var old_ := s.promises[p];
    var rec := if st == Fulfilled then old_.(status := Fulfilled, value := payload)
               else old_.(status := Rejected, reason := payload);
    Config(s.promises[p := rec], s.tasks + [p])
  }

  /** `getFulfill(p)` (for `Fulfilled`) and `getReject(p)` (for `Rejected`):
      the status is looked at when the setter is made, not when it is called. */
  function GetSetter(s: Config, p: Pid, st: Settled): (cb: Callback)
    requires p < |s.promises|
    ensures s.promises[p].status != Pending <==> cb == Noop
    ensures cb != Noop ==> cb == (if st == Fulfilled then FulfillSetter(p) else RejectSetter(p))
  {
    if s.promises[p].status != Pending then Noop
    else if st == Fulfilled then FulfillSetter(p) else RejectSetter(p)
  }

  /** Calling a callback with one argument: the module's own closures return
      `undefined`; a script value completes as scripted. */
  function Invoke(s: Config, cb: Callback, arg: JsValue): (r: (Config, Outcome))
    requires WellFormed(s) && CallbackOk(|s.promises|, cb) && ValueOk(|s.promises|, arg)
    ensures WellFormed(r.0) && |r.0.promises| == |s.promises|
    ensures cb.Js? || cb.Noop? ==> r.0 == s
    ensures cb.Js? ==> r.1 == CallOne(cb.f, arg)
    ensures !cb.Js? ==> r.1 == Normal(Undefined)
    ensures cb.FulfillSetter? ==> r.0.promises[cb.target].status == Fulfilled && r.0.promises[cb.target].value == arg
    ensures cb.RejectSetter? ==> r.0.promises[cb.target].status == Rejected && r.0.promises[cb.target].reason == arg
  {
    match cb
    case Js(f) => (s, CallOne(f, arg))
    case FulfillSetter(q) => (Settle(s, q, Fulfilled, arg), Normal(Undefined))
    case RejectSetter(q) => (Settle(s, q, Rejected, arg), Normal(Undefined))
    case Noop => (s, Normal(Undefined))
  }

  /** `getFulfill(p)(v)` / `getReject(p)(v)`: a setter made and called at once. */
  function SettleIfPending(s: Config, p: Pid, st: Settled, payload: JsValue): (r: Config)
    requires WellFormed(s) && p < |s.promises| && ValueOk(|s.promises|, payload)
    ensures WellFormed(r) && |r.promises| == |s.promises|
  {
    Invoke(s, GetSetter(s, p, st), payload).0
  }

  // ---------------------------------------------------------------------------
  // The resolution procedure (Promises/A+ section 2.3).

  /** The single thing `resolve(t, x)` ends up doing to the configuration:
      nothing, one settle attempt on `t`, or registering `t`'s setters on a
      pending APromise. */
  datatype Action = Unchanged | Settles(st: Settled, payload: JsValue) | Adopts(source: Pid)

  /** `(x !== null && typeof x === 'object') || isFunction(x)`, once `x` is
      known not to be an APromise. */
  predicate IsThenableCandidate(x: JsValue)
    ensures IsThenableCandidate(x) ==> x.Error? || x.Object? || x.Function? || x.PromiseRef?
    ensures x.Error? || x.Object? || x.PromiseRef? ==> IsThenableCandidate(x)
  {
    IsObject(x) || IsFunction(x)
  }

  /** Which action `resolve(t, x)` takes. Nothing is written before the action is
      taken, so every branch decides on the configuration as it was. Only the
      first call a foreign `then` makes to its two arguments counts; a throw
      after such a call is ignored. */
  function Decide(s: Config, t: Pid, x: JsValue): (a: Action)
    requires WellFormed(s) && t < |s.promises| && ValueOk(|s.promises|, x)
    ensures a.Settles? ==> ValueOk(|s.promises|, a.payload)
    ensures a.Adopts? ==> a.source < |s.promises| && a.source != t && s.promises[a.source].status == Pending
    decreases x
  {
    if x == PromiseRef(t) then Settles(Rejected, SelfResolutionError)
    else if x.PromiseRef? then
      var r := s.promises[x.id];
      if r.status == Pending then Adopts(x.id)
      else if r.status == Fulfilled then Settles(Fulfilled, r.value)
      else Settles(Rejected, r.reason)
    else if IsThenableCandidate(x) then
      assert x.Error? || x.Object? || x.Function?;
      var prop := if x.Error? then Yields(Undefined) else x.thenProp;
      if prop.Throws? then Settles(Rejected, prop.error)
      else if !IsFunction(prop.value) then Settles(Fulfilled, x)
      else if !prop.value.Function? then Settles(Rejected, NotCallableError)
      else
        assert ValueOk(|s.promises|, prop.value);
        var sc := prop.value.script;
        assert forall i :: 0 <= i < |sc.calls| ==> ValueOk(|s.promises|, sc.calls[i].arg);
        if |sc.calls| > 0 then
          match sc.calls[0]
          case CallFirst(y) => Decide(s, t, y)
          case CallSecond(reason) => Settles(Rejected, reason)
        else if sc.exit.Throw? then Settles(Rejected, sc.exit.error)
        else Unchanged
    else Settles(Fulfilled, x)
  }

  // ---------------------------------------------------------------------------
  // new APromise(resolver), then, and the factories.

  /** Applying the resolver's calls to the setters it was handed; both were
      made while the promise was pending, so every call writes. */
  function RunResolverCalls(s: Config, p: Pid, calls: seq<ArgCall>): (r: Config)
    requires WellFormed(s) && p < |s.promises|
    requires forall i :: 0 <= i < |calls| ==> ValueOk(|s.promises|, calls[i].arg)
    ensures WellFormed(r) && |r.promises| == |s.promises|
    decreases |calls|
  {
    if calls == [] then s
    else
      var s1 := Settle(s, p, if calls[0].CallFirst? then Fulfilled else Rejected, calls[0].arg);
      RunResolverCalls(s1, p, calls[1..])
  }

  /** `new APromise(resolver)` once `resolver` passed `isFunction`: a pending
      record with an empty queue, then the resolver's calls; a throw from the
      resolver escapes the constructor. */
  function Construct(s: Config, resolver: Script): (res: (Config, Construction))
    requires WellFormed(s)
    requires forall i :: 0 <= i < |resolver.calls| ==> ValueOk(|s.promises|, resolver.calls[i].arg)
    ensures WellFormed(res.0) && |res.0.promises| == |s.promises| + 1
  {
    var p := |s.promises|;
    var s1 := Allocate(s);
    forall i | 0 <= i < |resolver.calls| ensures ValueOk(p + 1, resolver.calls[i].arg) {
      ValueOkGrows(p, p + 1, resolver.calls[i].arg);
    }
    var s2 := RunResolverCalls(s1, p, resolver.calls);
    (s2, if resolver.exit.Throw? then Threw(resolver.exit.error) else Created(p))
  }

  /** `new APromise(() => {})`. */
  const Inert := Script([], Return)

  /** `new APromise(resolver)` for any value `resolver`. */
  function New(s: Config, resolver: JsValue): (res: (Config, Construction))
    requires WellFormed(s) && ValueOk(|s.promises|, resolver)
    ensures WellFormed(res.0)
  {
    if !IsFunction(resolver) then (s, Threw(ResolverError))
    else Construct(s, CallTwo(resolver))
  }

  /** `isValid && callback`: a callback kept only when `isFunction` holds of it;
      the module's own closures are functions. */
  function Validate(cb: Callback): (r: Option<Callback>)
    ensures r.Some? ==> r.value == cb
    ensures r.None? <==> cb.Js? && !IsFunction(cb.f)
  {
    if cb.Js? && !IsFunction(cb.f) then None else Some(cb)
  }

  /** `p.then(onFulfilled, onRejected)`: the new state and the returned promise. */
  function Then(s: Config, p: Pid, onFulfilled: Callback, onRejected: Callback): (res: (Config, Pid))
    requires WellFormed(s) && p < |s.promises|
    requires CallbackOk(|s.promises|, onFulfilled) && CallbackOk(|s.promises|, onRejected)
    ensures WellFormed(res.0) && |res.0.promises| == |s.promises| + 1 && res.1 == |s.promises|
  {
    var n := |s.promises|;
    var (s1, c) := Construct(s, Inert);
    var s2 := if s.promises[p].status != Pending then s1.(tasks := s1.tasks + [p]) else s1;
    var e := Entry(Validate(onFulfilled), Validate(onRejected), n);
    ValueOkGrows(n, n + 1, if onFulfilled.Js? then onFulfilled.f else Undefined);
    ValueOkGrows(n, n + 1, if onRejected.Js? then onRejected.f else Undefined);
    assert EntryOk(n + 1, e);
    var rec := s2.promises[p].(queue := s2.promises[p].queue + [e]);
    var s3 := s2.(promises := s2.promises[p := rec]);
    assert RecordOk(n + 1, rec);
    (s3, n)
  }

  /** Taking an action on `t`; adopting is `x.then(getFulfill(t), getReject(t))`. */
  function Perform(s: Config, t: Pid, a: Action): (r: Config)
    requires WellFormed(s) && t < |s.promises|
    requires a.Settles? ==> ValueOk(|s.promises|, a.payload)
    requires a.Adopts? ==> a.source < |s.promises|
    ensures WellFormed(r) && |r.promises| >= |s.promises|
  {
    match a
    case Unchanged => s
    case Settles(st, payload) => SettleIfPending(s, t, st, payload)
    case Adopts(q) => Then(s, q, GetSetter(s, t, Fulfilled), GetSetter(s, t, Rejected)).0
  }

  /** `resolve(t, x)`. */
  function Resolve(s: Config, t: Pid, x: JsValue): (r: Config)
    requires WellFormed(s) && t < |s.promises| && ValueOk(|s.promises|, x)
    ensures WellFormed(r) && |r.promises| >= |s.promises|
  {
    Perform(s, t, Decide(s, t, x))
  }

  /** `APromise.resolved(v)`: `new APromise(fulfill => fulfill(v))`. */
  function ResolvedPromise(s: Config, v: JsValue): (res: (Config, Construction))
    requires WellFormed(s) && ValueOk(|s.promises|, v)
    ensures WellFormed(res.0)
  {
    Construct(s, Script([CallFirst(v)], Return))
  }

  /** `APromise.rejected(r)`: `new APromise((fulfill, reject) => reject(r))`. */
  function RejectedPromise(s: Config, reason: JsValue): (res: (Config, Construction))
    requires WellFormed(s) && ValueOk(|s.promises|, reason)
    ensures WellFormed(res.0)
  {
    Construct(s, Script([CallSecond(reason)], Return))
  }

  /** `deferred().resolve(v)` on the deferred's promise: the fulfill setter
      directly, without the resolution procedure. */
  function DeferredResolve(s: Config, p: Pid, v: JsValue): (r: Config)
    requires WellFormed(s) && p < |s.promises| && ValueOk(|s.promises|, v)
    ensures WellFormed(r)
  {
    SettleIfPending(s, p, Fulfilled, v)
  }

  /** `deferred().reject(r)` on the deferred's promise. */
  function DeferredReject(s: Config, p: Pid, reason: JsValue): (r: Config)
    requires WellFormed(s) && p < |s.promises| && ValueOk(|s.promises|, reason)
    ensures WellFormed(r)
  {
    SettleIfPending(s, p, Rejected, reason)
  }

  // ---------------------------------------------------------------------------
  // The dispatcher (executeContextQueue) and the host's task queue.

  /** One callback run for entry downstream `d`: a throw rejects `d`, a result
      other than `undefined` is resolved into `d`, `undefined` does nothing more. */
  function Handle(s: Config, cb: Callback, arg: JsValue, d: Pid): (r: Config)
    requires WellFormed(s) && CallbackOk(|s.promises|, cb) && ValueOk(|s.promises|, arg) && d < |s.promises|
    ensures WellFormed(r) && |r.promises| >= |s.promises|
  {
    var (s1, out) := Invoke(s, cb, arg);
    match out
    case Abrupt(e) =>
      assert ValueOk(|s1.promises|, e) by {
        if cb.Js? { ValueOk1(|s.promises|, cb.f, arg); }
      }
      SettleIfPending(s1, d, Rejected, e)
    case Normal(x) =>
      if x.Undefined? then s1
      else
        assert ValueOk(|s1.promises|, x) by {
          if cb.Js? { ValueOk1(|s.promises|, cb.f, arg); }
        }
        Resolve(s1, d, x)
  }

  /** What calling a well-formed script value returns or throws is well-formed. */
  lemma ValueOk1(n: nat, f: JsValue, arg: JsValue)
    requires ValueOk(n, f) && ValueOk(n, arg)
    ensures CallOne(f, arg).Normal? ==> ValueOk(n, CallOne(f, arg).value)
    ensures CallOne(f, arg).Abrupt? ==> ValueOk(n, CallOne(f, arg).error)
  {
  }

  /** One iteration of the dispatch loop, on the status, value and reason read
      when the dispatch started. */
  function RunEntry(s: Config, st: Status, value: JsValue, reason: JsValue, e: Entry): (r: Config)
    requires WellFormed(s) && EntryOk(|s.promises|, e)
    requires ValueOk(|s.promises|, value) && ValueOk(|s.promises|, reason)
    ensures WellFormed(r) && |r.promises| >= |s.promises|
  {
    if st == Fulfilled then
      match e.onFulfilled
      case None => SettleIfPending(s, e.downstream, Fulfilled, value)
      case Some(cb) => Handle(s, cb, value, e.downstream)
    else if st == Rejected then
      match e.onRejected
      case None => SettleIfPending(s, e.downstream, Rejected, reason)
      case Some(cb) => Handle(s, cb, reason, e.downstream)
    else s
  }

  /** The dispatch loop over `es`, first entry first. */
  function RunEntries(s: Config, st: Status, value: JsValue, reason: JsValue, es: seq<Entry>): (r: Config)
    requires WellFormed(s) && EntriesOk(|s.promises|, es)
    requires ValueOk(|s.promises|, value) && ValueOk(|s.promises|, reason)
    ensures WellFormed(r) && |r.promises| >= |s.promises|
    decreases |es|
  {
    if es == [] then s
    else
      var k := |es| - 1;
      var s1 := RunEntries(s, st, value, reason, es[..k]);
      var n1 := |s1.promises|;
      EntriesOkGrow(|s.promises|, n1, es);
      ValueOkGrows(|s.promises|, n1, value);
      ValueOkGrows(|s.promises|, n1, reason);
      RunEntry(s1, st, value, reason, es[k])
  }

  /** `executeContextQueue(p)()`: run every entry of `p`'s queue, then reset the queue. */
  function Dispatch(s: Config, p: Pid): (r: Config)
    requires WellFormed(s) && p < |s.promises|
    ensures WellFormed(r) && |r.promises| >= |s.promises|
  {
    var rec := s.promises[p];
    var s1 := RunEntries(s, rec.status, rec.value, rec.reason, rec.queue);
    var s2 := s1.(promises := s1.promises[p := s1.promises[p].(queue := [])]);
    assert RecordOk(|s1.promises|, s2.promises[p]);
    s2
  }

  /** The host running the oldest scheduled dispatch. */
  function Tick(s: Config): (r: Config)
    requires WellFormed(s)
    ensures WellFormed(r)
  {
    if s.tasks == [] then s
    else Dispatch(s.(tasks := s.tasks[1..]), s.tasks[0])
  }
}
