/** The JavaScript values the mocking engine handles: call arguments,
    stored argument patterns, programmed return values and call receivers. */
module Values {

  /** The functions the engine can tell apart. The five built-in `Match`
      predicates are interpreted below; any other function is known only by
      its identity, and what it does is supplied by the `Host`. */
  datatype Callable =
    | AnyString
    | AnyInt
    | AnyNumber
    | AnyFunction
    | Anything
    | UserFn(id: nat)

  /** A JavaScript value. Numbers are integers here. `Everything` is the one
      marker object that the source exports both as `Match.everything` and
      as `Match.anyContext`. */
  datatype Value =
    | Undefined
    | Null
    | Bool(b: bool)
    | Num(n: int)
    | Str(s: string)
    | Fn(f: Callable)
    | Obj(ref: nat)
    | Everything

  /** The receiver (`this`) of an intercepted call. A call without a
      receiver is `NoContext`; `AnyContext` is the marker object used as a
      receiver to declare calls that apply to every receiver. */
  datatype ContextKey = NoContext | Ref(r: nat) | AnyContext

  /** What the model cannot see: the verdicts of user predicates, the
      results of user callbacks, and the own properties of objects (name to
      "is a function"). */
  datatype Host = Host(
    accepts: (nat, Value) -> bool,
    invoke: (nat, ContextKey, seq<Value>) -> Value,
    ownProps: nat -> map<string, bool>)

  predicate Nullish(v: Value) {
    v.Undefined? || v.Null?
  }

  /** JavaScript's loose `==`, restricted to the coercion between `null`
      and `undefined`. */
  predicate LooseEq(a: Value, b: Value) {
    a == b || (Nullish(a) && Nullish(b))
  }

  /** Whether `v` is loosely equal to the `Match.everything` marker. */
  predicate IsMarker(v: Value) {
    LooseEq(v, Everything)
  }

  /** Whether the predicate `f`, called on `v`, returns a truthy value. No
      built-in predicate accepts `null` or `undefined`, and of the built-ins
      only `Match.anything` accepts an object. */
  predicate Accepts(host: Host, f: Callable, v: Value)
    ensures !f.UserFn? && Nullish(v) ==> !Accepts(host, f, v)
    ensures !f.UserFn? && (v.Obj? || v.Everything?) ==> (Accepts(host, f, v) <==> f.Anything?)
  {
    match f
    case AnyString => v.Str?
    case AnyInt => v.Num?
    case AnyNumber => v.Num?
    case AnyFunction => v.Fn?
    case Anything => !Nullish(v)
    case UserFn(id) => host.accepts(id, v)
  }

  /** The value returned by calling `f` on receiver `ctx` with `args`. */
  function Apply(host: Host, f: Callable, ctx: ContextKey, args: seq<Value>): Value {
    match f
    case UserFn(id) => host.invoke(id, ctx, args)
    case _ => Bool(Accepts(host, f, if |args| == 0 then Undefined else args[0]))
  }
}
