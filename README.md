# APromise in Dafny

This project models `APromise`, a Promises/A+ implementation in JavaScript
(`src/index.js`), together with the two helpers it uses from `src/util.js`:
the once-call guard `ensureOnceCalled` and the `isFunction` test. It covers
four parts of the source:

- the settlement setters `getFulfill`/`getReject`;
- the resolution procedure `resolve` (section 2.3 of Promises/A+);
- the queue dispatcher `executeContextQueue` (sections 2.2.6 and 2.2.7);
- registration with `then`, the constructor, and the static factories
  `resolved`, `rejected` and `deferred`.

The model follows the code as written. Where it falls short of the
Promises/A+ ideal, lemmas show how.

## Layout

- `values.dfy` (module `JsValues`): JavaScript values as the core sees them.
  Plain objects and functions carry a `then` property whose getter either
  throws or yields a value. An error's `then` is always `undefined`, and
  primitives have none. An APromise is a reference by identity. User code is not modelled by its text but by a
  *script*:
  - a function's one-argument behaviour, used when it is a `then` callback:
    return a fixed value, return its argument, or throw;
  - its two-argument behaviour, used when it is a resolver or a foreign
    `then`: a finite list of calls to its first or second argument, then a
    return or a throw.
- `util.dfy` (module `Util`): `isFunction` as a predicate, and
  `ensureOnceCalled` as the class `OnceGuard`. The class holds the wrapped
  functions in order and the shared `isCalled` flag.
- `semantics.dfy` (module `Semantics`): the core as pure functions on a
  snapshot `Config`. A snapshot is the private record (`status`, `value`,
  `reason`, `thenContextQueue`) of every APromise, indexed by identity, plus
  the host's FIFO of scheduled dispatches. The FIFO stands in for
  `nextTick`.
  - `resolve` is split in two. `Decide` picks the one thing a resolution
    does: nothing, one settle attempt on the target, or registering the
    target's setters on a pending APromise. `Perform` then does it.
  - The module's own closures (the two setters and `NOOP`) are callbacks
    distinct from user values. The check for a pending promise happens when
    a setter is made, as in the source.
- `properties.dfy` (module `Properties`): the lemmas. Two invariants of
  the host's task FIFO together say that each registered context runs
  exactly once. `TasksSettled`: a dispatch never finds its promise
  pending. `NoStranded`: a settled promise whose queue holds contexts
  always has a dispatch scheduled. Every operation keeps both, and a
  dispatch empties the queue it runs (`DispatchDrains`).
- `apromise.dfy` (module `APromise`): class `Realm`, the imperative model.
  Its fields are the private records and the task FIFO. Each method updates
  them step by step, branch for branch as the source does. Each method is
  proved to leave `View()` equal to the matching `Semantics` function of the
  old state.
  - The dispatcher loops over the live queue, as the `for...of` at
    src/index.js:150 does, and resets the queue after the loop. Nothing in
    the model appends to that queue during the loop (see "Left out").
  - `resolve` on a foreign thenable runs the `then` script through a real
    `OnceGuard` object.

In three places the code departs from the contract it sets out to meet. The
model follows the code in each:

- Section 2.1.2-2.1.3 of Promises/A+ says a settled promise must not change
  state. The setters `getFulfill`/`getReject` check the status only when the
  setter is *made* (src/index.js:23-25, 43-45). The constructor hands the
  resolver two setters made while the promise is pending (src/index.js:225).
  A resolver that calls both therefore overwrites the first settlement
  (`Properties.ResolverCallsOverwrite`, `Properties.RunResolverCallsEffect`).
- The Promises/A+ test adapter's `deferred` contract says `resolve(value)`
  resolves the promise. The code's `deferred().resolve` calls the fulfill
  setter directly (src/index.js:281), so a thenable is stored as the value
  (`Properties.DeferredResolveDoesNotUnwrap`).
- The comment at src/index.js:158-160 quotes section 2.2.7.1: a callback's
  returned value is run through the resolution procedure. The code skips a
  result of `undefined` (src/index.js:161, 183), which leaves the downstream
  promise pending. This includes the setters registered by adoption
  (`Properties.AdoptionRun`).

## Model

| member | source | states |
|---|---|---|
| Semantics.Allocate | src/index.js:213-223 | a new private record is appended: pending, `value` and `reason` undefined, empty queue; well-formedness is kept |
| Semantics.Settle | src/index.js:27-31 | the setter closure overwrites status and payload without a check, leaves the other payload field and the queue as they were, schedules exactly one dispatch of that promise and changes no other promise |
| Semantics.GetSetter | src/index.js:19-25 | the setter is `NOOP` if and only if the promise is not pending when the setter is made; otherwise it is the fulfill or reject closure of that promise |
| Semantics.SettleIfPending | src/index.js:19-51 | a setter made and called at once keeps the configuration well-formed; its effect is stated by `Properties.SettleIfPendingEffect` |
| Semantics.Decide | src/index.js:57-135 | the single action of a resolution: a settle payload exists in the configuration, and an adopted promise exists, is not the target and is pending |
| Semantics.Perform | src/index.js:72 | taking the action keeps the configuration well-formed and never removes a promise; adoption is `x.then(getFulfill(t), getReject(t))` |
| Semantics.Resolve | src/index.js:57-135 | resolution keeps the configuration well-formed; its cases are stated by the `Properties.Resolve*` lemmas |
| Semantics.RunResolverCalls | src/index.js:225 | running the resolver's calls keeps every promise; their effect (status, `value`, `reason`, tasks) is stated by `Properties.RunResolverCallsEffect` |
| Semantics.Construct | src/index.js:213-225 | exactly one promise is added; its status, payload, queue and the tasks it schedules are stated by `Properties.ConstructEffect` |
| Semantics.Invoke | src/index.js:12 | calling `NOOP` or a user callback leaves the configuration as it was; a user callback completes as `CallOne` says; a setter closure writes its status and payload and returns `undefined` |
| Semantics.Validate | src/index.js:230-247 | a callback is replaced by the falsy marker exactly when it is a user value that fails `isFunction`, and is otherwise kept as given |
| Semantics.IsThenableCandidate | src/index.js:85 | only objects, functions and APromises pass; every object (an error, a plain object, an APromise) passes |
| Util.IsFunction | src/util.js:3 | a value passing `isFunction` is an object or function whose `Object.prototype.toString` tag is `[object Function]` |
| Semantics.New | src/index.js:207-226 | the constructor keeps the configuration well-formed; see `Properties.NewRejectsNonFunction` |
| Semantics.Then | src/index.js:228-251 | exactly one promise is added and it is the returned one; its effect is stated by `Properties.ThenEffect` |
| Semantics.ResolvedPromise | src/index.js:265-267 | stated by `Properties.ResolvedPromiseEffect` |
| Semantics.RejectedPromise | src/index.js:272-274 | stated by `Properties.RejectedPromiseEffect` |
| Semantics.DeferredResolve | src/index.js:280-282 | stated by `Properties.DeferredSettlesOnce` and `Properties.DeferredResolveDoesNotUnwrap` |
| Semantics.DeferredReject | src/index.js:283-285 | stated by `Properties.DeferredSettlesOnce` |
| Semantics.Handle | src/index.js:157-170 | one callback run inside the dispatcher's `try` never removes a promise; its cases are stated by `Properties.RunEntryCallsBack` |
| Semantics.RunEntry | src/index.js:152-197 | one context run never removes a promise; see `Properties.RunEntryPassesThrough` and `Properties.RunEntryCallsBack` |
| Semantics.RunEntries | src/index.js:150-198 | the contexts in queue order never remove a promise; see `Properties.RunEntriesInOrder` |
| Semantics.Dispatch | src/index.js:144-202 | a dispatch never removes a promise; see `Properties.DispatchDrains` |
| Semantics.Tick | src/util.js:32-63 | the host runs the oldest scheduled dispatch; see `Properties.TickKeepsTasksSettled` and `Properties.TickKeepsNoStranded` |
| Properties.SettleIfPendingEffect | src/index.js:19-51 | a setter made while the promise is not pending changes nothing; one made while it is pending is exactly `Settle`; either way settlements only move forward |
| Properties.InvokeEvolves | src/index.js:12 | calling `NOOP` or a user callback changes no record; a setter schedules at most one dispatch |
| Properties.ThenEffect | src/index.js:228-251 | `then` appends exactly one context on the receiver, with callbacks that fail `isFunction` replaced by the falsy marker and the returned promise as downstream. The returned promise is new, pending and has an empty queue. One dispatch is scheduled if and only if the receiver is not pending. No status, value or reason changes, so no callback runs synchronously |
| Properties.ThenOnPendingEvolves | src/index.js:241-249 | `then` on a pending promise schedules nothing and settles nothing |
| Properties.ResolveEvolves | src/index.js:57-135 | a resolution schedules at most one dispatch; settled promises stay settled and keep their queues |
| Properties.ResolveKeepsSettled | src/index.js:57-135 | a resolution leaves the whole record of every settled promise as it was, the target included |
| Properties.ResolveSelf | src/index.js:62-63 | resolving a promise with itself is a reject attempt on it with the TypeError |
| Properties.ResolveAdoptsPromise | src/index.js:67-81 | with a fulfilled APromise the target is fulfilled with its value, and with a rejected one it is rejected with its reason. With a pending one, exactly one context holding the target's setters is appended to its queue, a new pending promise is added, nothing else changes and nothing is scheduled |
| Properties.ResolveNonThenable | src/index.js:85-134 | if the `then` getter throws, the target is rejected with the thrown value. If `then` fails `isFunction`, the target is fulfilled with `x` itself. A value that is neither an object nor a function fulfills the target with itself |
| Properties.ResolveThenable | src/index.js:97-124 | a first `resolvePromise(y)` is resolving with `y` and a first `rejectPromise(r)` rejects with `r`. Later calls and a later throw are ignored. With no call, a throw rejects and a return leaves everything as it was |
| Properties.ResolveFirstCallWins | src/index.js:109-115 | two thenables whose `then` makes the same first call resolve identically, whatever follows |
| Properties.ResolveFulfillsUnwrapped | src/index.js:99-104 | following a chain of thenables, a fulfillment by resolution is never with an APromise or a thenable, as long as fulfilled APromises hold unwrapped values |
| Properties.RunEntryPassesThrough | src/index.js:172-196 | a missing callback passes the status and payload on to the downstream promise; a pending status does nothing |
| Properties.RunEntryCallsBack | src/index.js:155-190 | a callback that throws rejects the downstream promise with the exception. One that returns a value other than `undefined` resolves the downstream promise with it. One that returns `undefined` changes nothing, so the downstream promise stays as it was |
| Properties.RunEntryAdoptedSetter | src/index.js:72 | a context made by adoption calls the adopting promise's fulfill setter when the source is fulfilled and its reject setter when the source is rejected; either overwrites the adopting promise's settlement |
| Properties.RunEntryEvolves | src/index.js:152-197 | one context makes at most one settle attempt and schedules at most one dispatch |
| Properties.RunEntryKeepsQueue | src/index.js:150 | a context run leaves the queue of the dispatched promise as it was, so the loop over the live queue sees the entries present at the start |
| Properties.RunEntriesEvolves | src/index.js:150-198 | a dispatch loop over n contexts schedules at most n dispatches; settlements only move forward |
| Properties.RunEntriesSnoc | src/index.js:150 | a context appended at the end of the queue runs after all the others |
| Properties.RunEntriesInOrder | src/index.js:150-198 | contexts run in registration order: running a queue is running its first part, then the rest |
| Properties.DispatchDrains | src/index.js:200-201 | after a dispatch the queue is empty |
| Properties.DrainedDispatchIsIdentity | src/index.js:144-202 | a dispatch of an already drained queue changes nothing |
| Properties.DispatchTwice | src/index.js:144-202 | a second dispatch right after the first changes nothing |
| Properties.DispatchSchedules | src/index.js:144-202 | a dispatch only appends to the task FIFO, at most one task per context, each naming a settled promise |
| Properties.EvolvesKeepsTasksSettled | src/index.js:30 | if every scheduled dispatch names a settled promise, this stays so while settlements move forward |
| Properties.TickKeepsTasksSettled | src/index.js:144-202 | running the oldest task keeps every scheduled dispatch naming a settled promise |
| Properties.ResolveKeepsTasksSettled | src/index.js:57-135 | a resolution keeps every scheduled dispatch naming a settled promise |
| Properties.ThenKeepsTasksSettled | src/index.js:241-243 | `then` schedules only settled receivers |
| Properties.SettleCovered | src/index.js:27-31 | a setter's write schedules the dispatch of the promise it settles, so nothing it leaves holding contexts goes unscheduled |
| Properties.SettleIfPendingCovered | src/index.js:19-51 | the same for a setter made and called at once |
| Properties.ThenCovered | src/index.js:237-249 | a context added to a settled receiver comes with a dispatch of it, and no other promise gains contexts |
| Properties.ResolveCovered | src/index.js:57-135 | a resolution leaves no settled promise holding contexts it has not scheduled |
| Properties.HandleCovered | src/index.js:157-170 | the same for one callback run inside the dispatcher |
| Properties.RunEntryCovered | src/index.js:152-197 | the same for one context run |
| Properties.RunEntriesCovered | src/index.js:150-198 | the same for a whole dispatch loop, by induction over the contexts |
| Properties.TickKeepsNoStranded | src/index.js:237-240 | after the host runs the oldest task, every settled promise whose queue holds contexts still has a dispatch scheduled |
| Properties.ThenKeepsNoStranded | src/index.js:237-243 | `then` keeps every settled promise with contexts scheduled |
| Properties.ResolveKeepsNoStranded | src/index.js:57-135 | a resolution keeps every settled promise with contexts scheduled |
| Properties.ConstructKeepsNoStranded | src/index.js:213-225 | constructing keeps every settled promise with contexts scheduled; so do `resolved`, `rejected` and `deferred`, which construct |
| Properties.NewKeepsNoStranded | src/index.js:207-226 | the constructor, for any resolver value, keeps every settled promise with contexts scheduled |
| Properties.DeferredKeepsNoStranded | src/index.js:280-285 | a deferred's `resolve` and `reject` keep every settled promise with contexts scheduled |
| Properties.IsFunctionTagged | src/util.js:3 | `isFunction` holds exactly of objects and functions whose tag is `[object Function]` |
| Properties.NewRejectsNonFunction | src/index.js:209-211 | a resolver that fails `isFunction` makes the constructor throw, with nothing allocated |
| Properties.ConstructWithoutCalls | src/index.js:213-225 | a resolver that makes no call leaves one new pending promise with an empty queue; a throw from it escapes |
| Properties.RunResolverCallsEffect | src/index.js:225 | each resolver call overwrites the new promise's settlement and schedules one dispatch. The last call decides the status. `value` is the argument of the last `fulfill` call and `reason` that of the last `reject` call, each unchanged if there is none. No queue and no other promise changes |
| Properties.LastCallCons | src/index.js:225 | the last `fulfill` (or `reject`) argument of a call list is that of its tail, with the head's argument as the default |
| Properties.ConstructEffect | src/index.js:207-226 | the constructor adds one promise with an empty queue and leaves earlier promises untouched. The new promise is pending when the resolver makes no call, and otherwise settled as its last call says. Its `value` is the last `fulfill` argument and its `reason` the last `reject` argument, `undefined` where there is none. One dispatch is scheduled per call |
| Properties.ConstructKeepsTasksSettled | src/index.js:213-225 | constructing keeps every scheduled dispatch naming a settled promise; so do `resolved`, `rejected` and `deferred`, which construct |
| Properties.NewKeepsTasksSettled | src/index.js:207-226 | the constructor, for any resolver value, keeps every scheduled dispatch naming a settled promise |
| Properties.DeferredKeepsTasksSettled | src/index.js:280-285 | a deferred's `resolve` and `reject` keep every scheduled dispatch naming a settled promise |
| Properties.ResolvedPromiseEffect | src/index.js:265-267 | `resolved(v)` is a new promise fulfilled with `v` as given, with one dispatch scheduled |
| Properties.RejectedPromiseEffect | src/index.js:272-274 | `rejected(r)` is a new promise rejected with `r`, with one dispatch scheduled |
| Properties.ResolverCallsOverwrite | src/index.js:225 | a resolver that fulfills with 1 and then rejects with 2 leaves a promise rejected with 2 that still holds value 1, with two dispatches scheduled |
| Properties.DeferredSettlesOnce | src/index.js:276-287 | a deferred's `resolve`/`reject` settle a pending promise with the argument and do nothing once it is settled |
| Properties.DeferredResolveDoesNotUnwrap | src/index.js:280-282 | `deferred().resolve(B)` stores the APromise B itself as the value, where `resolve` adopts B's value |
| Properties.ChainCreate | src/index.js:265-267 | `resolved(1)` from an empty realm is promise 0, fulfilled with 1, with one dispatch scheduled |
| Properties.ChainRegister | src/index.js:228-251 | `then(() => 2)` on it registers a context, returns promise 1 pending, schedules a second dispatch and runs nothing |
| Properties.ChainDispatch | src/index.js:144-202 | the first dispatch runs the callback and fulfills promise 1 with 2 |
| Properties.ChainRun | src/index.js:144-267 | `resolved(1).then(() => 2)` is pending until the first dispatch and then fulfilled with 2 |
| Properties.AdoptRegister | src/index.js:67-73 | resolving pending A with pending B registers A's setters on B, with a new pending promise |
| Properties.AdoptSettle | src/index.js:280-282 | fulfilling B with "x" through its deferred schedules B's dispatch |
| Properties.AdoptDispatch | src/index.js:150-201 | B's dispatch fulfills A with "x"; the promise created by the adoption stays pending |
| Properties.AdoptionRun | src/index.js:57-201 | resolving A with a pending B and then fulfilling B makes A fulfilled with B's value at B's dispatch; the promise from the adoption is still pending after B's dispatch |
| Properties.EchoRegister | src/index.js:228-251 | `a.then(x => x)` on a pending deferred's promise registers one context and returns pending promise 1 |
| Properties.EchoSettle | src/index.js:280-282 | `a.resolve(b)` stores `b` itself as `a`'s value and schedules `a`'s dispatch |
| Properties.EchoDispatch | src/index.js:62-63 | `a`'s dispatch returns `b` into `b`'s own resolution, which rejects `b` with the TypeError |
| Properties.SelfResolutionRun | src/index.js:57-201 | a callback that returns the promise its `then` gave back rejects that promise with the TypeError |
| Util.OnceGuard.constructor | src/util.js:9-26 | `ensureOnceCalled(f1, …, fn)` yields n wrappers in argument order, with `isCalled` unset |
| Util.OnceGuard.Invoke | src/util.js:14-20 | the first invocation of any wrapper runs its function with the parameters unchanged. Every later one returns `false` and runs nothing. `isCalled` is set before the function runs |
| APromise.Realm.constructor | src/index.js:4 | an empty realm: no promise, no scheduled dispatch |
| APromise.Realm.Fulfill | src/index.js:27-31 | the fulfill closure, in place, leaves the realm as `Semantics.Settle` says |
| APromise.Realm.Reject | src/index.js:47-51 | the reject closure, in place, leaves the realm as `Semantics.Settle` says |
| APromise.Realm.GetFulfill | src/index.js:19-32 | `getFulfill` returns `NOOP` unless the promise is pending, and the promise's fulfill closure otherwise |
| APromise.Realm.GetReject | src/index.js:39-52 | `getReject` returns `NOOP` unless the promise is pending, and the promise's reject closure otherwise |
| APromise.Realm.Call | src/index.js:12 | calling a callback gives the state and outcome `Semantics.Invoke` says |
| APromise.Realm.Resolve | src/index.js:57-135 | `resolve`, branch for branch, leaves the realm as `Semantics.Resolve` says |
| APromise.Realm.ResolveThenable | src/index.js:97-124 | the `then` script run behind a real once-guard, with the `catch` consulting `isCalled`, leaves the realm as `Semantics.Resolve` says |
| APromise.Realm.Construct | src/index.js:213-225 | allocating the record and running the resolver's calls through the setters made at construction leaves the realm as `Semantics.Construct` says |
| APromise.Realm.New | src/index.js:207-226 | the constructor, the `isFunction` check included, agrees with `Semantics.New` |
| APromise.Realm.Then | src/index.js:228-251 | `then` in place agrees with `Semantics.Then` and returns the new promise |
| APromise.Realm.ResolvedPromise | src/index.js:265-267 | agrees with `Semantics.ResolvedPromise` |
| APromise.Realm.RejectedPromise | src/index.js:272-274 | agrees with `Semantics.RejectedPromise` |
| APromise.Realm.Deferred | src/index.js:276-277 | the deferred's promise is made with a no-op resolver |
| APromise.Realm.DeferredResolve | src/index.js:280-282 | agrees with `Semantics.DeferredResolve` |
| APromise.Realm.DeferredReject | src/index.js:283-285 | agrees with `Semantics.DeferredReject` |
| APromise.Realm.HandleCallback | src/index.js:157-170 | one callback run under `try`/`catch` agrees with `Semantics.Handle` |
| APromise.Realm.RunContext | src/index.js:152-197 | the body of the dispatch loop agrees with `Semantics.RunEntry` |
| APromise.Realm.ExecuteContextQueue | src/index.js:144-202 | the loop over the live queue, then the reset, leaves the realm as `Semantics.Dispatch` says |
| APromise.Realm.Tick | src/util.js:32-63 | the host running the oldest scheduled dispatch agrees with `Semantics.Tick` |

## Left out

- `nextTick` (src/util.js:32-63) is replaced by an explicit FIFO of scheduled dispatches, and the host runs them one at a time (`Tick`). The model does not cover its `process.nextTick`/`postMessage`/`setTimeout` plumbing, which includes a reference to an undefined `ev` at src/util.js:46.
- The `console.log` in the dispatcher (src/index.js:148) is logging only and is not modelled.
- lib/index.js is not part of this model. It is transpiler output that duplicates src/index.js.
- test/index.js is not part of this model. It runs an external conformance suite.
- JavaScript's `typeof`, `instanceof`, Symbols, real property getters and `Function.prototype.call` are abstracted into the value datatype.
- Numbers are unbounded integers, with no floating point and no NaN.
- The message of the TypeError an engine throws for a non-callable `then` is engine-specific. It is one fixed error value here.
- User code runs only as a script. A callback's one-argument behaviour is fixed; only "returns its argument" depends on the argument. A resolver or foreign `then` makes its calls synchronously, before it returns or throws.
- Calls that user code makes later, from another task, are not modelled. Neither is user code that calls `then` or `resolve` re-entrantly from inside a callback.
- The dispatcher (`Realm.ExecuteContextQueue`) loops over the live queue as src/index.js:150 does. But nothing in the model can append to the queue being dispatched (`Properties.RunEntryKeepsQueue`). So the model never shows the source's behaviour there: contexts a callback pushes during the loop run in the same pass, before the reset at src/index.js:201.
- An error cannot carry a `then` of its own, so an error that is itself a thenable cannot be expressed.
- A script value can name only promises that exist when it is handed over (`Semantics.ValueOk`). So a callback cannot return the very promise its own `then` returns (`p = a.then(() => p)`), and a callback cannot create promises (`a.then(() => APromise.resolved(2))`). The self-resolution branch is still reached from a dispatch when the receiver holds the downstream promise as its value (`Properties.SelfResolutionRun`).
- Scripts are finite, so an infinite or cyclic chain of thenables cannot be expressed. The source does not bound that recursion.
- Each APromise is an index into the realm's table of private records, not an object of its own. This matches the source, where every instance keeps its state in one private record reached through a Symbol key.
- Semantics.Settle: the model makes no monotonicity claim for the setters. As written, a setter made while a promise was pending overwrites the settlement whenever it is later called.
