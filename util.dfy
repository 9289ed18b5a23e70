/** The helpers of src/util.js that the promise core uses. */
module Util {
  import opened JsValues

  /** `isFunction(v)`: a truthy value whose `Object.prototype.toString` tag is
      `[object Function]`. Such a value need not be callable (an object may
      carry that tag), and a callable one need not pass (an async function's
      tag differs). */
  predicate IsFunction(v: JsValue)
    ensures IsFunction(v) ==> (v.Object? || v.Function?) && ToStringTag(v) == FunctionTag
  {
    Truthy(v) && ToStringTag(v) == FunctionTag
  }

  /** What invoking a wrapper made by `ensureOnceCalled` does: run the wrapped
      function with the parameters as given, or refuse and return `false`. */
  datatype Invocation<F, P> = Run(func: F, args: P) | Refused

  /** `ensureOnceCalled(f1, ..., fn)`: n wrappers, the k-th around `wrapped[k]`,
      sharing one `isCalled` flag. The caller performs a `Run` it is handed. */
  class OnceGuard<F> {
    /** The wrapped functions in argument order; wrapper k wraps `wrapped[k]`. */
    const wrapped: seq<F>
    /** `ret.isCalled` on the returned array (unset, hence falsy, at first). */
    var isCalled: bool

    constructor (funcs: seq<F>)
      ensures wrapped == funcs && |wrapped| == |funcs|
      ensures !isCalled
    {
      wrapped := funcs;
      isCalled := false;
    }

    /** Invoke wrapper `k` with `params`. The flag is set before the wrapped
        function runs, so it stays set whatever that function does. */
    method Invoke<P>(k: nat, params: P) returns (r: Invocation<F, P>)
      requires k < |wrapped|
      modifies this
      ensures isCalled
      ensures !old(isCalled) ==> r == Run(wrapped[k], params)
      ensures old(isCalled) ==> r == Refused
    {
      if isCalled {
        return Refused;
      }
      isCalled := true;
      r := Run(wrapped[k], params);
    }
  }
}
