/** What the APromise core guarantees, and where it falls short of the
    Promises/A+ ideal, stated and proved on the functions of `Semantics`. */
module Properties {
  import opened JsValues
  import opened Util
  import opened Semantics

  // ---------------------------------------------------------------------------
  // How a configuration may evolve under settling and resolving.

  /** `r` is `s` after settle attempts and resolutions: nothing is removed, a
      settled promise stays settled and keeps its queue, scheduled dispatches
      are only appended, and each appended one names a settled promise. */
  ghost predicate Evolves(s: Config, r: Config) {
    |s.promises| <= |r.promises| &&
    (forall q :: 0 <= q < |s.promises| && s.promises[q].status != Pending ==>
       r.promises[q].status != Pending && r.promises[q].queue == s.promises[q].queue) &&
    s.tasks <= r.tasks &&
    (forall i :: |s.tasks| <= i < |r.tasks| ==> r.tasks[i] < |r.promises| && r.promises[r.tasks[i]].status != Pending)
  }

  lemma EvolvesTransitive(s: Config, m: Config, r: Config)
    requires Evolves(s, m) && Evolves(m, r)
    ensures Evolves(s, r)
  {
    forall i | |s.tasks| <= i < |r.tasks|
      ensures r.tasks[i] < |r.promises| && r.promises[r.tasks[i]].status != Pending
    {
      if i < |m.tasks| {
        assert m.tasks[i] == r.tasks[i];
      }
    }
  }

  /** A setter obtained while the promise is not pending is `NOOP`; one
      obtained while it is pending writes status and payload, schedules one
      dispatch of that promise and changes nothing else. */
  lemma SettleIfPendingEffect(s: Config, p: Pid, st: Settled, payload: JsValue)
    requires WellFormed(s) && p < |s.promises| && ValueOk(|s.promises|, payload)
    ensures s.promises[p].status != Pending ==> SettleIfPending(s, p, st, payload) == s
    ensures s.promises[p].status == Pending ==> SettleIfPending(s, p, st, payload) == Settle(s, p, st, payload)
    ensures Evolves(s, SettleIfPending(s, p, st, payload))
  {
  }

  lemma InvokeEvolves(s: Config, cb: Callback, arg: JsValue)
    requires WellFormed(s) && CallbackOk(|s.promises|, cb) && ValueOk(|s.promises|, arg)
    ensures Evolves(s, Invoke(s, cb, arg).0)
    ensures |Invoke(s, cb, arg).0.tasks| <= |s.tasks| + 1
    ensures cb.Js? || cb.Noop? ==> Invoke(s, cb, arg).0 == s
  {
  }

  // ---------------------------------------------------------------------------
  // Registration: then

  /** `then` appends exactly one context, whose callbacks are the ones that
      passed `isFunction` (the falsy marker otherwise), returns a new pending
      promise with an empty queue, schedules a dispatch of the receiver if and
      only if the receiver is settled, and runs no callback: no status, value
      or reason changes. */
  lemma ThenEffect(s: Config, p: Pid, onFulfilled: Callback, onRejected: Callback)
    requires WellFormed(s) && p < |s.promises|
    requires CallbackOk(|s.promises|, onFulfilled) && CallbackOk(|s.promises|, onRejected)
    ensures var (r, d) := Then(s, p, onFulfilled, onRejected);
      d == |s.promises| &&
      r.promises == s.promises[p := s.promises[p].(queue := s.promises[p].queue + [Entry(Validate(onFulfilled), Validate(onRejected), d)])] + [NewRecord] &&
      r.tasks == (if s.promises[p].status != Pending then s.tasks + [p] else s.tasks)
  {
    var n := |s.promises|;
    assert Construct(s, Inert).0 == Allocate(s);
    var (r, d) := Then(s, p, onFulfilled, onRejected);
    var want := s.promises[p := s.promises[p].(queue := s.promises[p].queue + [Entry(Validate(onFulfilled), Validate(onRejected), d)])] + [NewRecord];
    assert |r.promises| == |want|;
    forall q | 0 <= q < |want| ensures r.promises[q] == want[q] { }
  }

  /** Registering on a pending promise only grows that promise's queue and
      adds a pending promise. */
  lemma ThenOnPendingEvolves(s: Config, p: Pid, onFulfilled: Callback, onRejected: Callback)
    requires WellFormed(s) && p < |s.promises| && s.promises[p].status == Pending
    requires CallbackOk(|s.promises|, onFulfilled) && CallbackOk(|s.promises|, onRejected)
    ensures Evolves(s, Then(s, p, onFulfilled, onRejected).0)
    ensures Then(s, p, onFulfilled, onRejected).0.tasks == s.tasks
  {
    ThenEffect(s, p, onFulfilled, onRejected);
  }

  // ---------------------------------------------------------------------------
  // The resolution procedure

  /** Resolving touches at most one promise's settlement (the target's, and
      only while it is pending), schedules at most one dispatch and never
      changes the queue of a settled promise. */
  lemma ResolveEvolves(s: Config, t: Pid, x: JsValue)
    requires WellFormed(s) && t < |s.promises| && ValueOk(|s.promises|, x)
    ensures Evolves(s, Resolve(s, t, x))
    ensures |Resolve(s, t, x).tasks| <= |s.tasks| + 1
  {
    var a := Decide(s, t, x);
    match a
    case Unchanged =>
    case Settles(st, payload) => SettleIfPendingEffect(s, t, st, payload);
    case Adopts(q) => ThenOnPendingEvolves(s, q, GetSetter(s, t, Fulfilled), GetSetter(s, t, Rejected));
  }

  // ---------------------------------------------------------------------------
  // The dispatcher

  lemma HandleEvolves(s: Config, cb: Callback, arg: JsValue, d: Pid)
    requires WellFormed(s) && CallbackOk(|s.promises|, cb) && ValueOk(|s.promises|, arg) && d < |s.promises|
    ensures Evolves(s, Handle(s, cb, arg, d))
    ensures |Handle(s, cb, arg, d).tasks| <= |s.tasks| + 1
  {
    var (s1, out) := Invoke(s, cb, arg);
    InvokeEvolves(s, cb, arg);
    if cb.Js? { ValueOk1(|s.promises|, cb.f, arg); }
    match out
    case Abrupt(e) =>
      SettleIfPendingEffect(s1, d, Rejected, e);
      EvolvesTransitive(s, s1, SettleIfPending(s1, d, Rejected, e));
    case Normal(x) =>
      if !x.Undefined? {
        ResolveEvolves(s1, d, x);
        EvolvesTransitive(s, s1, Resolve(s1, d, x));
      }
  }

  lemma RunEntryEvolves(s: Config, st: Status, value: JsValue, reason: JsValue, e: Entry)
    requires WellFormed(s) && EntryOk(|s.promises|, e)
    requires ValueOk(|s.promises|, value) && ValueOk(|s.promises|, reason)
    ensures Evolves(s, RunEntry(s, st, value, reason, e))
    ensures |RunEntry(s, st, value, reason, e).tasks| <= |s.tasks| + 1
  {
    if st == Fulfilled {
      match e.onFulfilled
      case None => SettleIfPendingEffect(s, e.downstream, Fulfilled, value);
      case Some(cb) => HandleEvolves(s, cb, value, e.downstream);
    } else if st == Rejected {
      match e.onRejected
      case None => SettleIfPendingEffect(s, e.downstream, Rejected, reason);
      case Some(cb) => HandleEvolves(s, cb, reason, e.downstream);
    }
  }

  /** One iteration of the dispatch loop of a promise leaves that promise's
      queue as it was, so the loop over the live queue sees exactly the
      entries that were there when the dispatch started. */
  lemma RunEntryKeepsQueue(s: Config, st: Status, value: JsValue, reason: JsValue, e: Entry, p: Pid)
    requires WellFormed(s) && EntryOk(|s.promises|, e) && p < |s.promises|
    requires ValueOk(|s.promises|, value) && ValueOk(|s.promises|, reason)
    requires st != Pending ==> s.promises[p].status != Pending
    ensures var r := RunEntry(s, st, value, reason, e);
      r.promises[p].queue == s.promises[p].queue && (st != Pending ==> r.promises[p].status != Pending)
  {
    RunEntryEvolves(s, st, value, reason, e);
  }

  /** The dispatch loop, entry by entry: settlements only move forward, the
      queue of a settled promise is left alone, and each entry schedules at
      most one dispatch (it makes at most one settle attempt). */
  lemma {:induction false} RunEntriesEvolves(s: Config, st: Status, value: JsValue, reason: JsValue, es: seq<Entry>)
    requires WellFormed(s) && EntriesOk(|s.promises|, es)
    requires ValueOk(|s.promises|, value) && ValueOk(|s.promises|, reason)
    ensures Evolves(s, RunEntries(s, st, value, reason, es))
    ensures |RunEntries(s, st, value, reason, es).tasks| <= |s.tasks| + |es|
    decreases |es|
  {
    if es != [] {
      var k := |es| - 1;
      var s1 := RunEntries(s, st, value, reason, es[..k]);
      RunEntriesEvolves(s, st, value, reason, es[..k]);
      var n1 := |s1.promises|;
      EntriesOkGrow(|s.promises|, n1, es);
      ValueOkGrows(|s.promises|, n1, value);
      ValueOkGrows(|s.promises|, n1, reason);
      RunEntryEvolves(s1, st, value, reason, es[k]);
      EvolvesTransitive(s, s1, RunEntry(s1, st, value, reason, es[k]));
    }
  }

  lemma EntriesOkConcat(n: nat, es1: seq<Entry>, es2: seq<Entry>)
    requires EntriesOk(n, es1) && EntriesOk(n, es2)
    ensures EntriesOk(n, es1 + es2)
  {
    forall i | 0 <= i < |es1 + es2| ensures EntryOk(n, (es1 + es2)[i]) {
      if i < |es1| { assert (es1 + es2)[i] == es1[i]; } else { assert (es1 + es2)[i] == es2[i - |es1|]; }
    }
  }

  /** Running a queue with one more entry at its end runs that entry last. */
  lemma RunEntriesSnoc(s: Config, st: Status, value: JsValue, reason: JsValue, es: seq<Entry>, e: Entry)
    requires WellFormed(s) && EntriesOk(|s.promises|, es) && EntryOk(|s.promises|, e)
    requires ValueOk(|s.promises|, value) && ValueOk(|s.promises|, reason)
    ensures EntriesOk(|s.promises|, es + [e])
    ensures var m := RunEntries(s, st, value, reason, es);
      EntryOk(|m.promises|, e) && ValueOk(|m.promises|, value) && ValueOk(|m.promises|, reason) &&
      RunEntries(s, st, value, reason, es + [e]) == RunEntry(m, st, value, reason, e)
  {
    EntriesOkConcat(|s.promises|, es, [e]);
    var m := RunEntries(s, st, value, reason, es);
    EntriesOkGrow(|s.promises|, |m.promises|, [e]);
    ValueOkGrows(|s.promises|, |m.promises|, value);
    ValueOkGrows(|s.promises|, |m.promises|, reason);
    assert (es + [e])[..|es|] == es;
  }

  /** Two runs that reach the same configuration stay together when both
      run one more entry. */
  lemma RunEntriesSnocAgree(s: Config, m: Config, st: Status, value: JsValue, reason: JsValue, es: seq<Entry>, fs: seq<Entry>, e: Entry)
    requires WellFormed(s) && EntriesOk(|s.promises|, es) && EntryOk(|s.promises|, e)
    requires ValueOk(|s.promises|, value) && ValueOk(|s.promises|, reason)
    requires WellFormed(m) && EntriesOk(|m.promises|, fs) && EntryOk(|m.promises|, e)
    requires ValueOk(|m.promises|, value) && ValueOk(|m.promises|, reason)
    requires RunEntries(s, st, value, reason, es) == RunEntries(m, st, value, reason, fs)
    ensures EntriesOk(|s.promises|, es + [e]) && EntriesOk(|m.promises|, fs + [e])
    ensures RunEntries(s, st, value, reason, es + [e]) == RunEntries(m, st, value, reason, fs + [e])
  {
    RunEntriesSnoc(s, st, value, reason, es, e);
    RunEntriesSnoc(m, st, value, reason, fs, e);
  }

  /** FIFO: running a queue is running its first part, then the rest. */
  lemma {:induction false} RunEntriesInOrder(s: Config, st: Status, value: JsValue, reason: JsValue, es1: seq<Entry>, es2: seq<Entry>)
    requires WellFormed(s) && EntriesOk(|s.promises|, es1) && EntriesOk(|s.promises|, es2)
    requires ValueOk(|s.promises|, value) && ValueOk(|s.promises|, reason)
    ensures EntriesOk(|s.promises|, es1 + es2)
    ensures var m := RunEntries(s, st, value, reason, es1);
      EntriesOk(|m.promises|, es2) && ValueOk(|m.promises|, value) && ValueOk(|m.promises|, reason) &&
      RunEntries(s, st, value, reason, es1 + es2) == RunEntries(m, st, value, reason, es2)
    decreases |es2|
  {
    EntriesOkConcat(|s.promises|, es1, es2);
    var m := RunEntries(s, st, value, reason, es1);
    EntriesOkGrow(|s.promises|, |m.promises|, es2);
    ValueOkGrows(|s.promises|, |m.promises|, value);
    ValueOkGrows(|s.promises|, |m.promises|, reason);
    if es2 == [] {
      assert es1 + es2 == es1;
    } else {
      var k := |es2| - 1;
      var front, last := es2[..k], es2[k];
      assert es2 == front + [last];
      assert es1 + es2 == (es1 + front) + [last];
      assert EntriesOk(|s.promises|, front);
      RunEntriesInOrder(s, st, value, reason, es1, front);
      RunEntriesSnocAgree(s, m, st, value, reason, es1 + front, front, last);
    }
  }

  /** After a dispatch the promise's queue is empty, and the entries were run
      on the status it had when the dispatch started. */
  lemma DispatchDrains(s: Config, p: Pid)
    requires WellFormed(s) && p < |s.promises|
    ensures Dispatch(s, p).promises[p].queue == []
    ensures Dispatch(s, p).promises[p].status == RunEntries(s, s.promises[p].status, s.promises[p].value, s.promises[p].reason, s.promises[p].queue).promises[p].status
  {
  }

  /** A dispatch of a promise whose queue is already empty changes nothing. */
  lemma DrainedDispatchIsIdentity(s: Config, p: Pid)
    requires WellFormed(s) && p < |s.promises| && s.promises[p].queue == []
    ensures Dispatch(s, p) == s
  {
    assert s.promises[p].(queue := []) == s.promises[p];
    assert s.promises[p := s.promises[p]] == s.promises;
  }

  /** A second dispatch right after the first changes nothing. */
  lemma DispatchTwice(s: Config, p: Pid)
    requires WellFormed(s) && p < |s.promises|
    ensures Dispatch(Dispatch(s, p), p) == Dispatch(s, p)
  {
    DispatchDrains(s, p);
    DrainedDispatchIsIdentity(Dispatch(s, p), p);
  }

  /** A dispatch only appends to the task queue, at most one task per entry
      it ran, and every task it appends names a settled promise. */
  lemma DispatchSchedules(s: Config, p: Pid)
    requires WellFormed(s) && p < |s.promises|
    ensures var r := Dispatch(s, p);
      s.tasks <= r.tasks && |r.tasks| <= |s.tasks| + |s.promises[p].queue| &&
      forall i :: |s.tasks| <= i < |r.tasks| ==> r.promises[r.tasks[i]].status != Pending
  {
    var rec := s.promises[p];
    RunEntriesEvolves(s, rec.status, rec.value, rec.reason, rec.queue);
  }

  // ---------------------------------------------------------------------------
  // One entry of a dispatch (Promises/A+ section 2.2.7)

  /** A missing callback passes the status and payload on to the downstream promise. */
  lemma RunEntryPassesThrough(s: Config, st: Status, value: JsValue, reason: JsValue, e: Entry)
    requires WellFormed(s) && EntryOk(|s.promises|, e)
    requires ValueOk(|s.promises|, value) && ValueOk(|s.promises|, reason)
    ensures st == Fulfilled && e.onFulfilled.None? ==>
      RunEntry(s, st, value, reason, e) == SettleIfPending(s, e.downstream, Fulfilled, value)
    ensures st == Rejected && e.onRejected.None? ==>
      RunEntry(s, st, value, reason, e) == SettleIfPending(s, e.downstream, Rejected, reason)
    ensures st == Pending ==> RunEntry(s, st, value, reason, e) == s
  {
  }

  /** A callback that throws rejects the downstream promise with what it threw;
      one that returns something other than `undefined` resolves the
      downstream promise with it; one that returns `undefined` leaves
      everything, the downstream promise included, as it was. */
  lemma RunEntryCallsBack(s: Config, st: Status, value: JsValue, reason: JsValue, e: Entry, f: JsValue)
    requires WellFormed(s) && EntryOk(|s.promises|, e)
    requires ValueOk(|s.promises|, value) && ValueOk(|s.promises|, reason)
    requires st == Fulfilled ==> e.onFulfilled == Some(Js(f))
    requires st == Rejected ==> e.onRejected == Some(Js(f))
    requires st != Pending
    ensures var arg := if st == Fulfilled then value else reason;
      var out := CallOne(f, arg);
      ValueOk(|s.promises|, f) &&
      (out.Abrupt? ==>
         ValueOk(|s.promises|, out.error) &&
         RunEntry(s, st, value, reason, e) == SettleIfPending(s, e.downstream, Rejected, out.error)) &&
      (out.Normal? && !out.value.Undefined? ==>
         ValueOk(|s.promises|, out.value) &&
         RunEntry(s, st, value, reason, e) == Resolve(s, e.downstream, out.value)) &&
      (out == Normal(Undefined) ==> RunEntry(s, st, value, reason, e) == s)
  {
    var arg := if st == Fulfilled then value else reason;
    ValueOk1(|s.promises|, f, arg);
  }

  /** A context registered by adoption holds the adopting promise's setters:
      calling one overwrites that promise's settlement without looking at its
      status, and, as a setter returns `undefined`, the downstream promise of
      the context stays as it was. */
  lemma RunEntryAdoptedSetter(s: Config, value: JsValue, reason: JsValue, e: Entry, t: Pid)
    requires WellFormed(s) && EntryOk(|s.promises|, e) && t < |s.promises|
    requires ValueOk(|s.promises|, value) && ValueOk(|s.promises|, reason)
    ensures e.onFulfilled == Some(FulfillSetter(t)) ==>
      RunEntry(s, Fulfilled, value, reason, e) == Settle(s, t, Fulfilled, value)
    ensures e.onRejected == Some(RejectSetter(t)) ==>
      RunEntry(s, Rejected, value, reason, e) == Settle(s, t, Rejected, reason)
  {
  }

  // ---------------------------------------------------------------------------
  // The host task queue

  /** Every scheduled dispatch names a settled promise. */
  ghost predicate TasksSettled(s: Config) {
    forall i :: 0 <= i < |s.tasks| ==> s.tasks[i] < |s.promises| && s.promises[s.tasks[i]].status != Pending
  }

  lemma EvolvesKeepsTasksSettled(s: Config, r: Config)
    requires TasksSettled(s) && Evolves(s, r)
    ensures TasksSettled(r)
  {
    forall i | 0 <= i < |r.tasks|
      ensures r.tasks[i] < |r.promises| && r.promises[r.tasks[i]].status != Pending
    {
      if i < |s.tasks| { assert r.tasks[i] == s.tasks[i]; }
    }
  }

  /** Running the oldest task keeps every scheduled dispatch pointing at a
      settled promise: a dispatch never finds its promise pending. */
  lemma TickKeepsTasksSettled(s: Config)
    requires WellFormed(s) && TasksSettled(s)
    ensures TasksSettled(Tick(s))
  {
    if s.tasks != [] {
      var s1 := s.(tasks := s.tasks[1..]);
      var p := s.tasks[0];
      assert TasksSettled(s1) by {
        forall i | 0 <= i < |s1.tasks| ensures s1.tasks[i] < |s1.promises| && s1.promises[s1.tasks[i]].status != Pending {
          assert s1.tasks[i] == s.tasks[i + 1];
        }
      }
      var rec := s1.promises[p];
      var m := RunEntries(s1, rec.status, rec.value, rec.reason, rec.queue);
      RunEntriesEvolves(s1, rec.status, rec.value, rec.reason, rec.queue);
      EvolvesKeepsTasksSettled(s1, m);
    }
  }

  /** Resolving keeps every scheduled dispatch pointing at a settled promise. */
  lemma ResolveKeepsTasksSettled(s: Config, t: Pid, x: JsValue)
    requires WellFormed(s) && t < |s.promises| && ValueOk(|s.promises|, x) && TasksSettled(s)
    ensures TasksSettled(Resolve(s, t, x))
  {
    ResolveEvolves(s, t, x);
    EvolvesKeepsTasksSettled(s, Resolve(s, t, x));
  }

  /** Registering keeps every scheduled dispatch pointing at a settled promise. */
  lemma ThenKeepsTasksSettled(s: Config, p: Pid, onFulfilled: Callback, onRejected: Callback)
    requires WellFormed(s) && p < |s.promises| && TasksSettled(s)
    requires CallbackOk(|s.promises|, onFulfilled) && CallbackOk(|s.promises|, onRejected)
    ensures TasksSettled(Then(s, p, onFulfilled, onRejected).0)
  {
    ThenEffect(s, p, onFulfilled, onRejected);
  }

  // ---------------------------------------------------------------------------
  // Every registered context runs: no settled promise is left holding
  // contexts without a dispatch scheduled.

  /** `q` is settled and its queue holds contexts still to run. */
  ghost predicate Waiting(s: Config, q: Pid) {
    q < |s.promises| && s.promises[q].status != Pending && s.promises[q].queue != []
  }

  /** Every settled promise whose queue holds contexts has a dispatch
      scheduled, so each of those contexts eventually runs. */
  ghost predicate NoStranded(s: Config) {
    forall q: Pid :: Waiting(s, q) ==> q in s.tasks
  }

  /** `r` extends the task FIFO of `s`, and every promise waiting in `r`
      either was waiting in `s` or has been scheduled since. */
  ghost predicate Covered(s: Config, r: Config) {
    s.tasks <= r.tasks &&
    forall q: Pid :: Waiting(r, q) ==> q in r.tasks[|s.tasks|..] || Waiting(s, q)
  }

  lemma CoveredTransitive(s: Config, m: Config, r: Config)
    requires Covered(s, m) && Covered(m, r)
    ensures Covered(s, r)
  {
    forall q: Pid | Waiting(r, q) ensures q in r.tasks[|s.tasks|..] || Waiting(s, q) {
      if q in r.tasks[|m.tasks|..] {
        var i :| 0 <= i < |r.tasks[|m.tasks|..]| && r.tasks[|m.tasks|..][i] == q;
        assert r.tasks[|s.tasks|..][i + |m.tasks| - |s.tasks|] == q;
      } else if Waiting(m, q) && q in m.tasks[|s.tasks|..] {
        var i :| 0 <= i < |m.tasks[|s.tasks|..]| && m.tasks[|s.tasks|..][i] == q;
        assert r.tasks[|s.tasks|..][i] == q;
      }
    }
  }

  lemma CoveredKeepsNoStranded(s: Config, r: Config)
    requires NoStranded(s) && Covered(s, r)
    ensures NoStranded(r)
  {
    forall q: Pid | Waiting(r, q) ensures q in r.tasks {
      if q in r.tasks[|s.tasks|..] {
        var i :| 0 <= i < |r.tasks[|s.tasks|..]| && r.tasks[|s.tasks|..][i] == q;
        assert r.tasks[|s.tasks| + i] == q;
      } else {
        var i :| 0 <= i < |s.tasks| && s.tasks[i] == q;
        assert r.tasks[i] == q;
      }
    }
  }

  lemma SettleCovered(s: Config, p: Pid, st: Settled, payload: JsValue)
    requires WellFormed(s) && p < |s.promises| && ValueOk(|s.promises|, payload)
    ensures Covered(s, Settle(s, p, st, payload))
  {
    assert Settle(s, p, st, payload).tasks[|s.tasks|..] == [p];
  }

  lemma SettleIfPendingCovered(s: Config, p: Pid, st: Settled, payload: JsValue)
    requires WellFormed(s) && p < |s.promises| && ValueOk(|s.promises|, payload)
    ensures Covered(s, SettleIfPending(s, p, st, payload))
  {
    SettleIfPendingEffect(s, p, st, payload);
    if s.promises[p].status == Pending { SettleCovered(s, p, st, payload); }
  }

  lemma ThenCovered(s: Config, p: Pid, onFulfilled: Callback, onRejected: Callback)
    requires WellFormed(s) && p < |s.promises|
    requires CallbackOk(|s.promises|, onFulfilled) && CallbackOk(|s.promises|, onRejected)
    ensures Covered(s, Then(s, p, onFulfilled, onRejected).0)
  {
    ThenEffect(s, p, onFulfilled, onRejected);
    var r := Then(s, p, onFulfilled, onRejected).0;
    if s.promises[p].status != Pending { assert r.tasks[|s.tasks|..] == [p]; }
    forall q: Pid | Waiting(r, q) ensures q in r.tasks[|s.tasks|..] || Waiting(s, q) {
      if q != p && q < |s.promises| { assert r.promises[q] == s.promises[q]; }
    }
  }

  lemma ResolveCovered(s: Config, t: Pid, x: JsValue)
    requires WellFormed(s) && t < |s.promises| && ValueOk(|s.promises|, x)
    ensures Covered(s, Resolve(s, t, x))
  {
    match Decide(s, t, x)
    case Unchanged =>
    case Settles(st, v) => SettleIfPendingCovered(s, t, st, v);
    case Adopts(q) => ThenCovered(s, q, GetSetter(s, t, Fulfilled), GetSetter(s, t, Rejected));
  }

  lemma HandleCovered(s: Config, cb: Callback, arg: JsValue, d: Pid)
    requires WellFormed(s) && CallbackOk(|s.promises|, cb) && ValueOk(|s.promises|, arg) && d < |s.promises|
    ensures Covered(s, Handle(s, cb, arg, d))
  {
    var (s1, out) := Invoke(s, cb, arg);
    InvokeEvolves(s, cb, arg);
    if cb.Js? { ValueOk1(|s.promises|, cb.f, arg); }
    if cb.FulfillSetter? {
      SettleCovered(s, cb.target, Fulfilled, arg);
    } else if cb.RejectSetter? {
      SettleCovered(s, cb.target, Rejected, arg);
    }
    match out
    case Abrupt(e) =>
      SettleIfPendingCovered(s1, d, Rejected, e);
      CoveredTransitive(s, s1, SettleIfPending(s1, d, Rejected, e));
    case Normal(x) =>
      if !x.Undefined? {
        ResolveCovered(s1, d, x);
        CoveredTransitive(s, s1, Resolve(s1, d, x));
      }
  }

  lemma RunEntryCovered(s: Config, st: Status, value: JsValue, reason: JsValue, e: Entry)
    requires WellFormed(s) && EntryOk(|s.promises|, e) && ValueOk(|s.promises|, value) && ValueOk(|s.promises|, reason)
    ensures Covered(s, RunEntry(s, st, value, reason, e))
  {
    if st == Fulfilled {
      match e.onFulfilled
      case None => SettleIfPendingCovered(s, e.downstream, Fulfilled, value);
      case Some(cb) => HandleCovered(s, cb, value, e.downstream);
    } else if st == Rejected {
      match e.onRejected
      case None => SettleIfPendingCovered(s, e.downstream, Rejected, reason);
      case Some(cb) => HandleCovered(s, cb, reason, e.downstream);
    }
  }

  lemma {:induction false} RunEntriesCovered(s: Config, st: Status, value: JsValue, reason: JsValue, es: seq<Entry>)
    requires WellFormed(s) && EntriesOk(|s.promises|, es) && ValueOk(|s.promises|, value) && ValueOk(|s.promises|, reason)
    ensures Covered(s, RunEntries(s, st, value, reason, es))
    decreases |es|
  {
    if es != [] {
      var k := |es| - 1;
      var s1 := RunEntries(s, st, value, reason, es[..k]);
      RunEntriesCovered(s, st, value, reason, es[..k]);
      EntriesOkGrow(|s.promises|, |s1.promises|, es);
      ValueOkGrows(|s.promises|, |s1.promises|, value);
      ValueOkGrows(|s.promises|, |s1.promises|, reason);
      RunEntryCovered(s1, st, value, reason, es[k]);
      CoveredTransitive(s, s1, RunEntry(s1, st, value, reason, es[k]));
    }
  }

  /** The host's tick keeps every waiting promise scheduled: the dispatched
      promise's queue is reset, and whatever its contexts settle is
      scheduled by the settling itself. */
  lemma TickKeepsNoStranded(s: Config)
    requires WellFormed(s) && NoStranded(s)
    ensures NoStranded(Tick(s))
  {
    if s.tasks != [] {
      var p := s.tasks[0];
      var s1 := s.(tasks := s.tasks[1..]);
      var rec := s1.promises[p];
      var m := RunEntries(s1, rec.status, rec.value, rec.reason, rec.queue);
      RunEntriesCovered(s1, rec.status, rec.value, rec.reason, rec.queue);
      var r := Tick(s);
      forall q: Pid | Waiting(r, q) ensures q in r.tasks {
        assert q != p;
        assert r.promises[q] == m.promises[q];
        assert Waiting(m, q);
        if q !in m.tasks[|s1.tasks|..] {
          assert Waiting(s, q);
          var i :| 0 <= i < |s.tasks| && s.tasks[i] == q;
          assert i > 0;
          assert m.tasks[i - 1] == s1.tasks[i - 1] == q;
        }
      }
    }
  }

  /** `then` keeps every waiting promise scheduled: a context added to a
      settled receiver comes with a dispatch of it. */
  lemma ThenKeepsNoStranded(s: Config, p: Pid, onFulfilled: Callback, onRejected: Callback)
    requires WellFormed(s) && p < |s.promises| && NoStranded(s)
    requires CallbackOk(|s.promises|, onFulfilled) && CallbackOk(|s.promises|, onRejected)
    ensures NoStranded(Then(s, p, onFulfilled, onRejected).0)
  {
    ThenCovered(s, p, onFulfilled, onRejected);
    CoveredKeepsNoStranded(s, Then(s, p, onFulfilled, onRejected).0);
  }

  /** A resolution keeps every waiting promise scheduled. */
  lemma ResolveKeepsNoStranded(s: Config, t: Pid, x: JsValue)
    requires WellFormed(s) && t < |s.promises| && ValueOk(|s.promises|, x) && NoStranded(s)
    ensures NoStranded(Resolve(s, t, x))
  {
    ResolveCovered(s, t, x);
    CoveredKeepsNoStranded(s, Resolve(s, t, x));
  }

  /** Constructing keeps every waiting promise scheduled: the new promise has
      no contexts, and no earlier promise changes. */
  lemma ConstructKeepsNoStranded(s: Config, resolver: Script)
    requires WellFormed(s) && NoStranded(s)
    requires forall i :: 0 <= i < |resolver.calls| ==> ValueOk(|s.promises|, resolver.calls[i].arg)
    ensures NoStranded(Construct(s, resolver).0)
  {
    ConstructEffect(s, resolver);
    var r := Construct(s, resolver).0;
    var n := |s.promises|;
    forall q: Pid | Waiting(r, q) ensures q in r.tasks[|s.tasks|..] || Waiting(s, q) {
      assert r.promises[q] == r.promises[..n][q];
    }
    CoveredKeepsNoStranded(s, r);
  }

  /** The constructor, for any resolver value, keeps every waiting promise
      scheduled. */
  lemma NewKeepsNoStranded(s: Config, resolver: JsValue)
    requires WellFormed(s) && ValueOk(|s.promises|, resolver) && NoStranded(s)
    ensures NoStranded(New(s, resolver).0)
  {
    if IsFunction(resolver) {
      var sc := CallTwo(resolver);
      assert forall i :: 0 <= i < |sc.calls| ==> ValueOk(|s.promises|, sc.calls[i].arg);
      ConstructKeepsNoStranded(s, sc);
    }
  }

  /** A deferred's `resolve` and `reject` keep every waiting promise
      scheduled. */
  lemma DeferredKeepsNoStranded(s: Config, p: Pid, v: JsValue)
    requires WellFormed(s) && p < |s.promises| && ValueOk(|s.promises|, v) && NoStranded(s)
    ensures NoStranded(DeferredResolve(s, p, v)) && NoStranded(DeferredReject(s, p, v))
  {
    SettleIfPendingCovered(s, p, Fulfilled, v);
    SettleIfPendingCovered(s, p, Rejected, v);
    CoveredKeepsNoStranded(s, DeferredResolve(s, p, v));
    CoveredKeepsNoStranded(s, DeferredReject(s, p, v));
  }

  // ---------------------------------------------------------------------------
  // The resolution procedure, case by case (Promises/A+ section 2.3)

  /** Resolving a promise with itself rejects it with a TypeError (2.3.1). */
  lemma ResolveSelf(s: Config, t: Pid)
    requires WellFormed(s) && t < |s.promises|
    ensures Resolve(s, t, PromiseRef(t)) == SettleIfPending(s, t, Rejected, SelfResolutionError)
  {
  }

  /** Resolving with another APromise takes its state (2.3.2): a settled one
      at once, a pending one by registering the target's setters on it as one
      new context (and a new pending promise), with nothing run and nothing
      scheduled. */
  lemma ResolveAdoptsPromise(s: Config, t: Pid, q: Pid)
    requires WellFormed(s) && t < |s.promises| && q < |s.promises| && q != t
    ensures s.promises[q].status == Fulfilled ==>
      Resolve(s, t, PromiseRef(q)) == SettleIfPending(s, t, Fulfilled, s.promises[q].value)
    ensures s.promises[q].status == Rejected ==>
      Resolve(s, t, PromiseRef(q)) == SettleIfPending(s, t, Rejected, s.promises[q].reason)
    ensures s.promises[q].status == Pending ==>
      var r := Resolve(s, t, PromiseRef(q));
      var e := Entry(Some(GetSetter(s, t, Fulfilled)), Some(GetSetter(s, t, Rejected)), |s.promises|);
      r.promises == s.promises[q := s.promises[q].(queue := s.promises[q].queue + [e])] + [NewRecord] &&
      r.tasks == s.tasks
  {
    if s.promises[q].status == Pending {
      ThenEffect(s, q, GetSetter(s, t, Fulfilled), GetSetter(s, t, Rejected));
    }
  }

  /** Resolving with an object or function whose `then` getter throws rejects
      with what it threw (2.3.3.2); one whose `then` is not a function fulfills
      with the value itself (2.3.3.4); a value that is neither an object nor a
      function fulfills with itself (2.3.4). */
  lemma ResolveNonThenable(s: Config, t: Pid, x: JsValue)
    requires WellFormed(s) && t < |s.promises| && ValueOk(|s.promises|, x) && !x.PromiseRef?
    ensures !IsThenableCandidate(x) ==> Resolve(s, t, x) == SettleIfPending(s, t, Fulfilled, x)
    ensures IsThenableCandidate(x) && ThenOf(x).Throws? ==>
      ValueOk(|s.promises|, ThenOf(x).error) &&
      Resolve(s, t, x) == SettleIfPending(s, t, Rejected, ThenOf(x).error)
    ensures IsThenableCandidate(x) && ThenOf(x).Yields? && !IsFunction(ThenOf(x).value) ==>
      Resolve(s, t, x) == SettleIfPending(s, t, Fulfilled, x)
  {
  }

  /** For a thenable, only the first call its `then` method makes counts
      (2.3.3.3.3): a first call of `resolvePromise(y)` is resolving with `y`
      (2.3.3.3.1), a first call of `rejectPromise(r)` rejects with `r`
      (2.3.3.3.2), and whatever follows, a throw included (2.3.3.3.4.1), is
      ignored. Without any call, a throw rejects (2.3.3.3.4.2) and a return
      leaves the target as it was. */
  lemma ResolveThenable(s: Config, t: Pid, x: JsValue)
    requires WellFormed(s) && t < |s.promises| && ValueOk(|s.promises|, x) && !x.PromiseRef?
    requires IsThenableCandidate(x) && ThenOf(x).Yields? && IsFunction(ThenOf(x).value)
    ensures var f := ThenOf(x).value;
      var sc := CallTwo(f);
      (forall i :: 0 <= i < |sc.calls| ==> ValueOk(|s.promises|, sc.calls[i].arg)) &&
      (|sc.calls| > 0 && sc.calls[0].CallFirst? ==> Resolve(s, t, x) == Resolve(s, t, sc.calls[0].arg)) &&
      (|sc.calls| > 0 && sc.calls[0].CallSecond? ==> Resolve(s, t, x) == SettleIfPending(s, t, Rejected, sc.calls[0].arg)) &&
      (|sc.calls| == 0 && sc.exit.Throw? ==> ValueOk(|s.promises|, sc.exit.error) && Resolve(s, t, x) == SettleIfPending(s, t, Rejected, sc.exit.error)) &&
      (sc == Script([], Return) ==> Resolve(s, t, x) == s)
  {
    var f := ThenOf(x).value;
    assert ValueOk(|s.promises|, f);
  }

  /** Two thenables whose `then` methods make the same first call resolve
      alike, whatever else they do afterwards. */
  lemma ResolveFirstCallWins(s: Config, t: Pid, x1: JsValue, x2: JsValue, first: ArgCall)
    requires WellFormed(s) && t < |s.promises| && ValueOk(|s.promises|, x1) && ValueOk(|s.promises|, x2)
    requires !x1.PromiseRef? && IsThenableCandidate(x1) && ThenOf(x1).Yields? && IsFunction(ThenOf(x1).value)
    requires !x2.PromiseRef? && IsThenableCandidate(x2) && ThenOf(x2).Yields? && IsFunction(ThenOf(x2).value)
    requires ThenOf(x1).value.Function? && |ThenOf(x1).value.script.calls| > 0 && ThenOf(x1).value.script.calls[0] == first
    requires ThenOf(x2).value.Function? && |ThenOf(x2).value.script.calls| > 0 && ThenOf(x2).value.script.calls[0] == first
    ensures Resolve(s, t, x1) == Resolve(s, t, x2)
  {
    ResolveThenable(s, t, x1);
    ResolveThenable(s, t, x2);
  }

  /** A value is unwrapped when it is neither an APromise nor an object or
      function with a callable-looking `then`. */
  predicate Unwrapped(v: JsValue) {
    !v.PromiseRef? && (IsThenableCandidate(v) ==> ThenOf(v).Yields? && !IsFunction(ThenOf(v).value))
  }

  /** Every fulfilled promise holds an unwrapped value. */
  ghost predicate FulfillsUnwrapped(s: Config) {
    forall q :: 0 <= q < |s.promises| && s.promises[q].status == Fulfilled ==> Unwrapped(s.promises[q].value)
  }

  /** The resolution procedure follows a chain of thenables to its end: when
      it fulfills the target, it does so with an unwrapped value, provided the
      fulfilled APromises it may adopt from hold unwrapped values. */
  lemma {:induction false} ResolveFulfillsUnwrapped(s: Config, t: Pid, x: JsValue)
    requires WellFormed(s) && t < |s.promises| && ValueOk(|s.promises|, x) && FulfillsUnwrapped(s)
    ensures var a := Decide(s, t, x); a.Settles? && a.st == Fulfilled ==> Unwrapped(a.payload)
    decreases x
  {
    if x != PromiseRef(t) && !x.PromiseRef? && IsThenableCandidate(x) {
      var prop := ThenOf(x);
      if prop.Yields? && IsFunction(prop.value) && prop.value.Function? {
        var sc := prop.value.script;
        assert ValueOk(|s.promises|, prop.value);
        if |sc.calls| > 0 && sc.calls[0].CallFirst? {
          assert ValueOk(|s.promises|, sc.calls[0].arg);
          ResolveFulfillsUnwrapped(s, t, sc.calls[0].arg);
        }
      }
    }
  }

  /** Resolving changes no promise that is already settled, record and all:
      a settled target is never reverted, and a promise adopted from is
      pending. */
  lemma ResolveKeepsSettled(s: Config, t: Pid, x: JsValue)
    requires WellFormed(s) && t < |s.promises| && ValueOk(|s.promises|, x)
    ensures forall q :: 0 <= q < |s.promises| && s.promises[q].status != Pending ==> Resolve(s, t, x).promises[q] == s.promises[q]
  {
    match Decide(s, t, x)
    case Unchanged =>
    case Settles(st, payload) => SettleIfPendingEffect(s, t, st, payload);
    case Adopts(q) => ThenEffect(s, q, GetSetter(s, t, Fulfilled), GetSetter(s, t, Rejected));
  }

  // ---------------------------------------------------------------------------
  // The constructor and the factories

  /** `isFunction` holds only of objects and functions tagged
      `[object Function]`: never of a primitive, an error or an APromise, and
      a function with another tag fails it. */
  lemma IsFunctionTagged(v: JsValue)
    ensures IsFunction(v) <==> (v.Object? || v.Function?) && ToStringTag(v) == FunctionTag
  {
  }

  /** A resolver that fails `isFunction` makes the constructor throw before
      anything is allocated. */
  lemma NewRejectsNonFunction(s: Config, resolver: JsValue)
    requires WellFormed(s) && ValueOk(|s.promises|, resolver) && !IsFunction(resolver)
    ensures New(s, resolver) == (s, Threw(ResolverError))
  {
  }

  /** A resolver that makes no call leaves a new pending promise with an empty
      queue; a throw escapes the constructor. */
  lemma ConstructWithoutCalls(s: Config, exit: Exit)
    requires WellFormed(s)
    ensures var (r, c) := Construct(s, Script([], exit));
      r.promises == s.promises + [NewRecord] && r.tasks == s.tasks &&
      c == (if exit.Throw? then Threw(exit.error) else Created(|s.promises|))
  {
  }

  /** The argument of the last `CallFirst` among `calls`, or `d` if there is none. */
  function LastFirst(calls: seq<ArgCall>, d: JsValue): JsValue {
    if calls == [] then d
    else if calls[|calls| - 1].CallFirst? then calls[|calls| - 1].arg
    else LastFirst(calls[..|calls| - 1], d)
  }

  /** The argument of the last `CallSecond` among `calls`, or `d` if there is none. */
  function LastSecond(calls: seq<ArgCall>, d: JsValue): JsValue {
    if calls == [] then d
    else if calls[|calls| - 1].CallSecond? then calls[|calls| - 1].arg
    else LastSecond(calls[..|calls| - 1], d)
  }

  /** The last `CallFirst` of `[c] + rest` is that of `rest`, with `c`'s
      argument as the default when `c` is one; likewise for `CallSecond`. */
  lemma {:induction false} LastCallCons(c: ArgCall, rest: seq<ArgCall>, d: JsValue, e: JsValue)
    ensures LastFirst([c] + rest, d) == LastFirst(rest, if c.CallFirst? then c.arg else d)
    ensures LastSecond([c] + rest, e) == LastSecond(rest, if c.CallSecond? then c.arg else e)
    decreases |rest|
  {
    if rest == [] {
      assert [c] + rest == [c];
      assert [c][..0] == [];
    } else {
      var k := |rest| - 1;
      assert ([c] + rest)[..|rest|] == [c] + rest[..k];
      assert ([c] + rest)[|rest|] == rest[k];
      LastCallCons(c, rest[..k], d, e);
    }
  }

  /** The resolver's calls each overwrite the settlement of the new promise
      and schedule one dispatch of it: the last call decides the status,
      `value` holds the argument of the last `fulfill` call and `reason` that
      of the last `reject` call (each as it was if there is none), and no
      other promise and no queue changes. */
  lemma {:induction false} RunResolverCallsEffect(s: Config, p: Pid, calls: seq<ArgCall>)
    requires WellFormed(s) && p < |s.promises|
    requires forall i :: 0 <= i < |calls| ==> ValueOk(|s.promises|, calls[i].arg)
    ensures var r := RunResolverCalls(s, p, calls);
      r.promises[p].queue == s.promises[p].queue &&
      (forall q :: 0 <= q < |s.promises| && q != p ==> r.promises[q] == s.promises[q]) &&
      r.tasks == s.tasks + seq(|calls|, _ => p) &&
      (calls == [] ==> r.promises[p] == s.promises[p]) &&
      (calls != [] ==> r.promises[p].status == (if calls[|calls| - 1].CallFirst? then Fulfilled else Rejected)) &&
      r.promises[p].value == LastFirst(calls, s.promises[p].value) &&
      r.promises[p].reason == LastSecond(calls, s.promises[p].reason)
    decreases |calls|
  {
    if calls != [] {
      var s1 := Settle(s, p, if calls[0].CallFirst? then Fulfilled else Rejected, calls[0].arg);
      RunResolverCallsEffect(s1, p, calls[1..]);
      assert s.tasks + seq(|calls|, _ => p) == s1.tasks + seq(|calls| - 1, _ => p);
      if |calls| > 1 {
        assert calls[1..][|calls[1..]| - 1] == calls[|calls| - 1];
      }
      assert calls == [calls[0]] + calls[1..];
      LastCallCons(calls[0], calls[1..], s.promises[p].value, s.promises[p].reason);
    }
  }

  /** `new APromise(resolver)` with a callable resolver: one new promise with
      an empty queue, pending when the resolver calls nothing and settled as
      its last call says otherwise, holding the argument of the last
      `fulfill` call as `value` and that of the last `reject` call as
      `reason` (`undefined` where there is none); no earlier promise
      changes, and each call schedules one dispatch. */
  lemma ConstructEffect(s: Config, resolver: Script)
    requires WellFormed(s)
    requires forall i :: 0 <= i < |resolver.calls| ==> ValueOk(|s.promises|, resolver.calls[i].arg)
    ensures var (r, c) := Construct(s, resolver); var n := |s.promises|; var calls := resolver.calls;
      |r.promises| == n + 1 &&
      r.promises[..n] == s.promises && r.promises[n].queue == [] &&
      (calls == [] ==> r.promises[n] == NewRecord) &&
      (calls != [] ==> r.promises[n].status == (if calls[|calls| - 1].CallFirst? then Fulfilled else Rejected)) &&
      r.promises[n].value == LastFirst(calls, Undefined) &&
      r.promises[n].reason == LastSecond(calls, Undefined) &&
      r.tasks == s.tasks + seq(|calls|, _ => n) &&
      c == (if resolver.exit.Throw? then Threw(resolver.exit.error) else Created(n))
  {
    var n := |s.promises|;
    var s1 := Allocate(s);
    forall i | 0 <= i < |resolver.calls| ensures ValueOk(n + 1, resolver.calls[i].arg) {
      ValueOkGrows(n, n + 1, resolver.calls[i].arg);
    }
    RunResolverCallsEffect(s1, n, resolver.calls);
    var r := RunResolverCalls(s1, n, resolver.calls);
    assert r.promises[..n] == s.promises by {
      forall q | 0 <= q < n ensures r.promises[q] == s.promises[q] { assert s1.promises[q] == s.promises[q]; }
    }
  }

  /** Constructing keeps every scheduled dispatch pointing at a settled
      promise: the new promise is scheduled only by its resolver's calls,
      which settle it. */
  lemma ConstructKeepsTasksSettled(s: Config, resolver: Script)
    requires WellFormed(s) && TasksSettled(s)
    requires forall i :: 0 <= i < |resolver.calls| ==> ValueOk(|s.promises|, resolver.calls[i].arg)
    ensures TasksSettled(Construct(s, resolver).0)
  {
    ConstructEffect(s, resolver);
    var r := Construct(s, resolver).0;
    var n := |s.promises|;
    forall i | 0 <= i < |r.tasks| ensures r.tasks[i] < |r.promises| && r.promises[r.tasks[i]].status != Pending {
      if i < |s.tasks| {
        assert r.tasks[i] == s.tasks[i];
        assert r.promises[s.tasks[i]] == r.promises[..n][s.tasks[i]];
      } else {
        assert r.tasks[i] == n;
      }
    }
  }

  /** The constructor, for any resolver value, keeps every scheduled
      dispatch pointing at a settled promise. */
  lemma NewKeepsTasksSettled(s: Config, resolver: JsValue)
    requires WellFormed(s) && ValueOk(|s.promises|, resolver) && TasksSettled(s)
    ensures TasksSettled(New(s, resolver).0)
  {
    if IsFunction(resolver) {
      var sc := CallTwo(resolver);
      assert forall i :: 0 <= i < |sc.calls| ==> ValueOk(|s.promises|, sc.calls[i].arg);
      ConstructKeepsTasksSettled(s, sc);
    }
  }

  /** A deferred's `resolve` and `reject` keep every scheduled dispatch
      pointing at a settled promise. */
  lemma DeferredKeepsTasksSettled(s: Config, p: Pid, v: JsValue)
    requires WellFormed(s) && p < |s.promises| && ValueOk(|s.promises|, v) && TasksSettled(s)
    ensures TasksSettled(DeferredResolve(s, p, v)) && TasksSettled(DeferredReject(s, p, v))
  {
    SettleIfPendingEffect(s, p, Fulfilled, v);
    SettleIfPendingEffect(s, p, Rejected, v);
    EvolvesKeepsTasksSettled(s, DeferredResolve(s, p, v));
    EvolvesKeepsTasksSettled(s, DeferredReject(s, p, v));
  }

  /** `APromise.resolved(v)` is a new promise fulfilled with `v` as given (a
      thenable is not unwrapped) with one dispatch scheduled. */
  lemma ResolvedPromiseEffect(s: Config, v: JsValue)
    requires WellFormed(s) && ValueOk(|s.promises|, v)
    ensures var (r, c) := ResolvedPromise(s, v);
      c == Created(|s.promises|) &&
      r.promises == s.promises + [Record(Fulfilled, v, Undefined, [])] &&
      r.tasks == s.tasks + [|s.promises|]
  {
    var n := |s.promises|;
    var s1 := Allocate(s);
    ValueOkGrows(n, n + 1, v);
    var s2 := Settle(s1, n, Fulfilled, v);
    assert RunResolverCalls(s1, n, [CallFirst(v)]) == RunResolverCalls(s2, n, []);
    assert s2.promises == s1.promises[n := s1.promises[n].(status := Fulfilled, value := v)];
  }

  /** `APromise.rejected(reason)` is a new promise rejected with `reason`, with
      one dispatch scheduled. */
  lemma RejectedPromiseEffect(s: Config, reason: JsValue)
    requires WellFormed(s) && ValueOk(|s.promises|, reason)
    ensures var (r, c) := RejectedPromise(s, reason);
      c == Created(|s.promises|) &&
      r.promises == s.promises + [Record(Rejected, Undefined, reason, [])] &&
      r.tasks == s.tasks + [|s.promises|]
  {
    var n := |s.promises|;
    var s1 := Allocate(s);
    ValueOkGrows(n, n + 1, reason);
    var s2 := Settle(s1, n, Rejected, reason);
    assert RunResolverCalls(s1, n, [CallSecond(reason)]) == RunResolverCalls(s2, n, []);
    assert s2.promises == s1.promises[n := s1.promises[n].(status := Rejected, reason := reason)];
  }

  /** The setters handed to a resolver do not check the status: a resolver
      that fulfills with 1 and then rejects with 2 leaves a rejected promise
      that still carries the value 1, with two dispatches scheduled. */
  lemma ResolverCallsOverwrite()
    ensures var (r, c) := Construct(Config([], []), Script([CallFirst(Number(1)), CallSecond(Number(2))], Return));
      c == Created(0) && r.promises == [Record(Rejected, Number(1), Number(2), [])] && r.tasks == [0, 0]
  {
  }

  /** `deferred().resolve` and `deferred().reject` settle a pending promise
      once; after that they do nothing. */
  lemma DeferredSettlesOnce(s: Config, p: Pid, v: JsValue, w: JsValue)
    requires WellFormed(s) && p < |s.promises| && ValueOk(|s.promises|, v) && ValueOk(|s.promises|, w)
    requires s.promises[p].status == Pending
    ensures var r := DeferredResolve(s, p, v);
      r.promises[p].status == Fulfilled && r.promises[p].value == v && r.tasks == s.tasks + [p] &&
      DeferredResolve(r, p, w) == r && DeferredReject(r, p, w) == r
    ensures var r := DeferredReject(s, p, v);
      r.promises[p].status == Rejected && r.promises[p].reason == v && r.tasks == s.tasks + [p] &&
      DeferredResolve(r, p, w) == r && DeferredReject(r, p, w) == r
  {
    SettleIfPendingEffect(s, p, Fulfilled, v);
    SettleIfPendingEffect(s, p, Rejected, v);
  }

  /** `deferred().resolve` stores an APromise as the value itself, where the
      resolution procedure would have adopted its state: the invariant
      `FulfillsUnwrapped` is not kept by the deferred. */
  lemma DeferredResolveDoesNotUnwrap()
    ensures var s := Config([NewRecord, Record(Fulfilled, Number(7), Undefined, [])], []);
      DeferredResolve(s, 0, PromiseRef(1)).promises[0].value == PromiseRef(1) &&
      Resolve(s, 0, PromiseRef(1)).promises[0].value == Number(7) &&
      FulfillsUnwrapped(s) && !FulfillsUnwrapped(DeferredResolve(s, 0, PromiseRef(1)))
  {
    var s := Config([NewRecord, Record(Fulfilled, Number(7), Undefined, [])], []);
    assert Unwrapped(Number(7));
    assert !Unwrapped(PromiseRef(1));
  }

  // ---------------------------------------------------------------------------
  // Two runs end to end

  /** `() => 2`, as a `then` callback. */
  const ReturnsTwo := Function(FunctionTag, Yields(Undefined), Returns(Number(2)), Inert)

  const ChainContext := Entry(Some(Js(ReturnsTwo)), None, 1)

  /** After `const a = APromise.resolved(1)`. */
  const ChainStart := Config([Record(Fulfilled, Number(1), Undefined, [])], [0])

  /** After `const b = a.then(() => 2)`. */
  const ChainRegistered := Config([Record(Fulfilled, Number(1), Undefined, [ChainContext]), NewRecord], [0, 0])

  /** After the first scheduled dispatch of `a`. */
  const ChainDispatched := Config([Record(Fulfilled, Number(1), Undefined, []), Record(Fulfilled, Number(2), Undefined, [])], [0, 1])

  lemma ChainCreate()
    ensures ResolvedPromise(Config([], []), Number(1)) == (ChainStart, Created(0))
  {
    ResolvedPromiseEffect(Config([], []), Number(1));
    var (r, c) := ResolvedPromise(Config([], []), Number(1));
    assert r.promises == [] + [Record(Fulfilled, Number(1), Undefined, [])];
    assert r == ChainStart;
  }

  /** `then` on a settled promise registers the context and schedules a
      dispatch, but runs nothing. */
  lemma ChainRegister()
    ensures Then(ChainStart, 0, Js(ReturnsTwo), Js(Undefined)) == (ChainRegistered, 1)
  {
    ThenEffect(ChainStart, 0, Js(ReturnsTwo), Js(Undefined));
    assert IsFunction(ReturnsTwo) && !IsFunction(Undefined);
    var (r, d) := Then(ChainStart, 0, Js(ReturnsTwo), Js(Undefined));
    assert r.promises[0] == ChainRegistered.promises[0];
    assert r.promises == ChainRegistered.promises;
    assert r.tasks == [0] + [0];
    assert r == ChainRegistered;
  }

  /** The dispatch runs the callback, and its result fulfills `b`. */
  lemma ChainDispatch()
    ensures Tick(ChainRegistered) == ChainDispatched
  {
    var s := ChainRegistered.(tasks := [0]);
    assert WellFormed(s) by { assert IsFunction(ReturnsTwo); }
    var e := ChainContext;
    assert RunEntries(s, Fulfilled, Number(1), Undefined, [e]) == RunEntry(s, Fulfilled, Number(1), Undefined, e) by {
      assert [e][..0] == [];
    }
    RunEntryCallsBack(s, Fulfilled, Number(1), Undefined, e, ReturnsTwo);
    ResolveNonThenable(s, 1, Number(2));
    SettleIfPendingEffect(s, 1, Fulfilled, Number(2));
    var m := RunEntry(s, Fulfilled, Number(1), Undefined, e);
    assert m.promises == [ChainRegistered.promises[0], Record(Fulfilled, Number(2), Undefined, [])];
  }

  /** The same run end to end: `b` is pending until the dispatch and then
      fulfilled with 2. */
  lemma ChainRun()
    ensures var (s1, c) := ResolvedPromise(Config([], []), Number(1));
      var (s2, d) := Then(s1, 0, Js(ReturnsTwo), Js(Undefined));
      c == Created(0) && d == 1 && s2.promises[1].status == Pending &&
      Tick(s2).promises[1].status == Fulfilled && Tick(s2).promises[1].value == Number(2)
  {
    ChainCreate();
    ChainRegister();
    ChainDispatch();
  }

  const AdoptContext := Entry(Some(FulfillSetter(0)), Some(RejectSetter(0)), 2)

  /** Two pending promises A (0) and B (1). */
  const AdoptStart := Config([NewRecord, NewRecord], [])

  /** After `resolve(A, B)`: A's setters sit on B, with a new promise 2. */
  const AdoptRegistered := Config([NewRecord, NewRecord.(queue := [AdoptContext]), NewRecord], [])

  /** After B is fulfilled with "x" by its deferred. */
  const AdoptSettled := Config([NewRecord, Record(Fulfilled, Str("x"), Undefined, [AdoptContext]), NewRecord], [1])

  /** After B's dispatch. */
  const AdoptDispatched := Config([Record(Fulfilled, Str("x"), Undefined, []), Record(Fulfilled, Str("x"), Undefined, []), NewRecord], [0])

  lemma AdoptRegister()
    ensures Resolve(AdoptStart, 0, PromiseRef(1)) == AdoptRegistered
  {
    var s := AdoptStart;
    ResolveAdoptsPromise(s, 0, 1);
    assert GetSetter(s, 0, Fulfilled) == FulfillSetter(0) && GetSetter(s, 0, Rejected) == RejectSetter(0);
    var r := Resolve(s, 0, PromiseRef(1));
    assert r.promises[1] == AdoptRegistered.promises[1];
    assert r.promises == AdoptRegistered.promises;
  }

  lemma AdoptSettle()
    ensures DeferredResolve(AdoptRegistered, 1, Str("x")) == AdoptSettled
  {
    SettleIfPendingEffect(AdoptRegistered, 1, Fulfilled, Str("x"));
    var r := DeferredResolve(AdoptRegistered, 1, Str("x"));
    assert r.promises == AdoptSettled.promises;
  }

  /** The dispatch calls A's fulfill setter, so A takes B's value; the setter
      returns `undefined`, so promise 2 stays pending. */
  lemma AdoptDispatch()
    ensures Tick(AdoptSettled) == AdoptDispatched
  {
    var s := AdoptSettled.(tasks := []);
    var e := AdoptContext;
    assert RunEntries(s, Fulfilled, Str("x"), Undefined, [e]) == RunEntry(s, Fulfilled, Str("x"), Undefined, e) by {
      assert [e][..0] == [];
    }
    RunEntryAdoptedSetter(s, Str("x"), Undefined, e, 0);
    var m := RunEntry(s, Fulfilled, Str("x"), Undefined, e);
    assert m.promises == [Record(Fulfilled, Str("x"), Undefined, []), AdoptSettled.promises[1], NewRecord];
    assert m.tasks == [0];
    assert AdoptSettled.(tasks := AdoptSettled.tasks[1..]) == s;
    assert Dispatch(s, 1) == m.(promises := m.promises[1 := m.promises[1].(queue := [])]);
    assert Tick(AdoptSettled) == m.(promises := m.promises[1 := m.promises[1].(queue := [])]);
    assert m.promises[1 := m.promises[1].(queue := [])] == AdoptDispatched.promises;
  }

  /** The same run end to end. */
  lemma AdoptionRun()
    ensures var s3 := Tick(DeferredResolve(Resolve(AdoptStart, 0, PromiseRef(1)), 1, Str("x")));
      s3.promises[0].status == Fulfilled && s3.promises[0].value == Str("x") &&
      |s3.promises| == 3 && s3.promises[2].status == Pending && s3.tasks == [0]
  {
    AdoptRegister();
    AdoptSettle();
    AdoptDispatch();
  }

  /** `x => x`, as a `then` callback. */
  const ReturnsArg := Function(FunctionTag, Yields(Undefined), ReturnsArgument, Inert)

  const EchoContext := Entry(Some(Js(ReturnsArg)), None, 1)

  /** After `const a = APromise.deferred()` and `const b = a.promise.then(x => x)`. */
  const EchoRegistered := Config([NewRecord.(queue := [EchoContext]), NewRecord], [])

  /** After `a.resolve(b)`, which stores `b` itself as the value of `a`. */
  const EchoSettled := Config([Record(Fulfilled, PromiseRef(1), Undefined, [EchoContext]), NewRecord], [0])

  /** After the dispatch of `a`: its callback returned `b`, and resolving `b`
      with itself rejected it. */
  const EchoDispatched := Config([Record(Fulfilled, PromiseRef(1), Undefined, []), Record(Rejected, Undefined, SelfResolutionError, [])], [1])

  lemma EchoRegister()
    ensures Then(Config([NewRecord], []), 0, Js(ReturnsArg), Js(Undefined)) == (EchoRegistered, 1)
  {
    var s := Config([NewRecord], []);
    ThenEffect(s, 0, Js(ReturnsArg), Js(Undefined));
    assert IsFunction(ReturnsArg) && !IsFunction(Undefined);
    var (r, d) := Then(s, 0, Js(ReturnsArg), Js(Undefined));
    assert r.promises[0] == EchoRegistered.promises[0];
    assert r.promises == EchoRegistered.promises;
  }

  lemma EchoSettle()
    ensures DeferredResolve(EchoRegistered, 0, PromiseRef(1)) == EchoSettled
  {
    SettleIfPendingEffect(EchoRegistered, 0, Fulfilled, PromiseRef(1));
    var r := DeferredResolve(EchoRegistered, 0, PromiseRef(1));
    assert r.promises == EchoSettled.promises;
  }

  /** The callback returns `b` into `b`'s own resolution, which takes the
      self-resolution branch (Promises/A+ 2.3.1). */
  lemma EchoDispatch()
    ensures Tick(EchoSettled) == EchoDispatched
  {
    var s := EchoSettled.(tasks := []);
    var e := EchoContext;
    assert WellFormed(s) by { assert IsFunction(ReturnsArg); }
    assert RunEntries(s, Fulfilled, PromiseRef(1), Undefined, [e]) == RunEntry(s, Fulfilled, PromiseRef(1), Undefined, e) by {
      assert [e][..0] == [];
    }
    RunEntryCallsBack(s, Fulfilled, PromiseRef(1), Undefined, e, ReturnsArg);
    ResolveSelf(s, 1);
    SettleIfPendingEffect(s, 1, Rejected, SelfResolutionError);
    var m := RunEntry(s, Fulfilled, PromiseRef(1), Undefined, e);
    assert m.promises == [EchoSettled.promises[0], Record(Rejected, Undefined, SelfResolutionError, [])];
    assert m.tasks == [1];
    assert EchoSettled.(tasks := EchoSettled.tasks[1..]) == s;
    assert Dispatch(s, 0) == m.(promises := m.promises[0 := m.promises[0].(queue := [])]);
    assert m.promises[0 := m.promises[0].(queue := [])] == EchoDispatched.promises;
  }

  /** The same run end to end: a callback that returns the promise `then`
      gave back rejects that promise with the TypeError. */
  lemma SelfResolutionRun()
    ensures var (s1, b) := Then(Config([NewRecord], []), 0, Js(ReturnsArg), Js(Undefined));
      var s3 := Tick(DeferredResolve(s1, 0, PromiseRef(b)));
      b == 1 && s3.promises[1].status == Rejected && s3.promises[1].reason == SelfResolutionError
  {
    EchoRegister();
    EchoSettle();
    EchoDispatch();
  }
}
