/** JavaScript values, abstracted to what the promise core can observe of them.
    User code (callbacks, resolvers, foreign `then` methods) is not modelled by its
    text but by a script of what it does when called. */
module JsValues {

  /** What reading the `then` property of an object or function does:
      the getter throws, or it yields a value (`Undefined` when there is none). */
  datatype Property = Throws(error: JsValue) | Yields(value: JsValue)

  /** What a function does when it is called with one argument (as a `then` callback):
      return a fixed value, return its argument, or throw. */
  datatype Completion = Returns(result: JsValue) | ReturnsArgument | Raises(error: JsValue)

  /** One call a running function makes to the first or the second function it was given. */
  datatype ArgCall = CallFirst(arg: JsValue) | CallSecond(arg: JsValue)

  /** How such a function ends after its calls. */
  datatype Exit = Return | Throw(error: JsValue)

  /** What a function does when it is called with two function arguments
      (a resolver, or the `then` method of a foreign thenable). */
  datatype Script = Script(calls: seq<ArgCall>, exit: Exit)

  datatype JsValue =
    | Undefined
    | Null
    | Bool(b: bool)
    | Number(n: int)
    | Str(s: string)
    | Error(name: string, message: string)
      /** A plain object; `tag` is what `Object.prototype.toString` reports for it. */
    | Object(tag: string, thenProp: Property)
      /** A function object with its own `then` property and its two scripted behaviours. */
    | Function(tag: string, thenProp: Property, onCall: Completion, script: Script)
      /** An APromise instance, by identity. */
    | PromiseRef(id: nat)

  /** The outcome of calling a function: a normal return or a thrown value. */
  datatype Outcome = Normal(value: JsValue) | Abrupt(error: JsValue)

  const FunctionTag := "[object Function]"

  /** The error an engine throws when something that is not callable is called
      (its message is engine-specific). */
  const NotCallableError := Error("TypeError", "not a function")

  /** JavaScript truthiness (numbers are integers here, so there is no NaN). */
  predicate Truthy(v: JsValue) {
    match v
    case Undefined => false
    case Null => false
    case Bool(b) => b
    case Number(n) => n != 0
    case Str(s) => s != ""
    case _ => true
  }

  /** `Object.prototype.toString.call(v)`. */
  function ToStringTag(v: JsValue): string {
    match v
    case Undefined => "[object Undefined]"
    case Null => "[object Null]"
    case Bool(_) => "[object Boolean]"
    case Number(_) => "[object Number]"
    case Str(_) => "[object String]"
    case Error(_, _) => "[object Error]"
    case Object(tag, _) => tag
    case Function(tag, _, _, _) => tag
    case PromiseRef(_) => "[object Object]"
  }

  /** `v !== null && typeof v === 'object'`. */
  predicate IsObject(v: JsValue) {
    v.Error? || v.Object? || v.PromiseRef?
  }

  /** Reading `v.then` on an object other than an APromise, or on a function. */
  function ThenOf(v: JsValue): Property
    requires v.Error? || v.Object? || v.Function?
  {
    if v.Error? then Yields(Undefined) else v.thenProp
  }

  /** Calling `f(arg)`. */
  function CallOne(f: JsValue, arg: JsValue): Outcome {
    if f.Function? then
      match f.onCall
      case Returns(v) => Normal(v)
      case ReturnsArgument => Normal(arg)
      case Raises(e) => Abrupt(e)
    else Abrupt(NotCallableError)
  }

  /** What calling `f` with two function arguments does; calling something
      that is not callable throws before any call is made. */
  function CallTwo(f: JsValue): Script {
    if f.Function? then f.script else Script([], Throw(NotCallableError))
  }
}
