/**
 * The slice of the JavaScript object model the trap reads through:
 * property keys, values, instances as maps from keys to values, and
 * `Reflect.get` as a lookup that lets own properties shadow the prototype.
 * Objects are values here; the trap never writes through them.
 */
module JsValues {
  import Numbers
  import opened Wrappers

  /** A property key: a string or a symbol (symbols are told apart by an identity). */
  datatype Key = Name(s: string) | Symbol(id: nat)

  /**
   * The code of a function value. `ElementOf(field)` is the shape of the `at`
   * methods in the test classes, `at(index) { return this[field][index]; }`;
   * every other function is `Native(id)`, whose behaviour the host supplies.
   */
  datatype Code = ElementOf(field: Key) | Native(id: nat)

  /**
   * A value. Numbers are the integral ones (the only ones the routing produces
   * or the scenarios store); `ObjectRef` is a plain object.
   */
  datatype Value =
    | Undefined
    | Null
    | Boolean(b: bool)
    | Number(n: int)
    | String(text: string)
    | Array(elements: seq<Value>)
    | Function(code: Code)
    | ObjectRef(obj: Obj)

  /** A prototype member: a method, or a getter that returns one own field of the receiver. */
  datatype Member = Method(code: Code) | Getter(field: Key)

  /** An instance: its own properties and its (flattened) prototype chain. */
  datatype Obj = Obj(own: map<Key, Value>, proto: map<Key, Member>)

  /** A completed call: a value, or an exception that propagates. */
  datatype Exception = TypeError | Thrown(id: nat)

  datatype Completion<T> = Normal(value: T) | Throw(error: Exception)

  /**
   * The host: the behaviour of native functions, called with a receiver and an
   * integer argument, and of class constructors, called with their arguments.
   */
  datatype Host = Host(call: (nat, Obj, int) -> Completion<Value>, build: (nat, seq<Value>) -> Completion<Obj>)

  /** `Reflect.get(o, k)` with `o` as the receiver. */
  function Lookup(o: Obj, k: Key): (v: Value)
    ensures k in o.own ==> v == o.own[k]
    ensures k !in o.own && k !in o.proto ==> v == Undefined
    ensures k !in o.own && k in o.proto && o.proto[k].Method? ==> v == Function(o.proto[k].code)
  {
    if k in o.own then o.own[k]
    else if k in o.proto then
      match o.proto[k]
      case Method(code) => Function(code)
      case Getter(field) => if field in o.own then o.own[field] else Undefined
    else Undefined
  }

  /** `undefined` and `null`, the values optional chaining stops at. */
  predicate IsNullish(v: Value) {
    v == Undefined || v == Null
  }

  /** JavaScript truthiness of the configured delegate key: the empty string is falsy, every symbol truthy. */
  predicate IsTruthyKey(k: Key) {
    k.Symbol? || k.s != ""
  }

  /**
   * Truthiness of the optional `clsProp` configuration, `if (clsProp)`:
   * absent (`undefined`) and the empty string are falsy, every other string
   * and every symbol truthy.
   */
  predicate IsTruthy(clsProp: Option<Key>): (b: bool)
    ensures clsProp.None? || clsProp == Some(Name("")) ==> !b
    ensures clsProp.Some? && clsProp.value.Symbol? ==> b
    ensures clsProp.Some? && clsProp.value.Name? && |clsProp.value.s| > 0 ==> b
  {
    clsProp.Some? && IsTruthyKey(clsProp.value)
  }

  /** A class, known by the identity of its constructor. */
  datatype Class = Class(ctor: nat)

  /**
   * The callability probe on the `at` lookup (`typeof` / `Object.prototype.toString`):
   * `undefined`, `null`, primitives, arrays and plain objects all fail it.
   */
  predicate IsCallable(v: Value): (b: bool)
    ensures IsNullish(v) || v.Boolean? || v.Number? || v.String? || v.Array? || v.ObjectRef? ==> !b
    ensures v.Function? ==> b
  {
    v.Function?
  }

  /**
   * `v[n]` for a non-nullish `v` and an integer `n`: array and string elements
   * by position, the key `String(n)` on a plain object, and `undefined` on the
   * other primitives and functions, which have no integer-keyed properties.
   */
  function Index(v: Value, n: int): (r: Value)
    requires !IsNullish(v)
    ensures v.Array? ==> r == (if 0 <= n < |v.elements| then v.elements[n] else Undefined)
    ensures v.String? && !(0 <= n < |v.text|) ==> r == Undefined
    ensures v.ObjectRef? ==> r == Lookup(v.obj, Name(Numbers.IntToString(n)))
  {
    match v
    case Array(elements) => if 0 <= n < |elements| then elements[n] else Undefined
    case String(text) => if 0 <= n < |text| then String([text[n]]) else Undefined
    case ObjectRef(obj) => Lookup(obj, Name(Numbers.IntToString(n)))
    case _ => Undefined
  }

  /** `v?.[n]`: `undefined` when `v` is nullish, `v[n]` otherwise. */
  function OptionalIndex(v: Value, n: int): (r: Value)
    ensures IsNullish(v) ==> r == Undefined
    ensures v.Array? ==> r == (if 0 <= n < |v.elements| then v.elements[n] else Undefined)
  {
    if IsNullish(v) then Undefined else Index(v, n)
  }

  /** `f.call(receiver, n)` for a function value `f`. */
  function Invoke(code: Code, receiver: Obj, n: int, host: Host): (r: Completion<Value>)
    ensures code.ElementOf? && IsNullish(Lookup(receiver, code.field)) ==> r == Throw(TypeError)
    ensures code.ElementOf? && !IsNullish(Lookup(receiver, code.field)) ==>
      r == Normal(Index(Lookup(receiver, code.field), n))
  {
    match code
    case ElementOf(field) =>
      var container := Lookup(receiver, field);
      if IsNullish(container) then Throw(TypeError) else Normal(Index(container, n))
    case Native(id) => host.call(id, receiver, n)
  }
}
