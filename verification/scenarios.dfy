/**
 * The classes of the test suites, `MyData` (a `_data` array, a `_name`
 * field, a `name` getter and `push`) and `MyData2` (a `_data` array, a `data`
 * getter, `push` and `at(index) { return this._data[index]; }`), and the
 * reads the tests make through the wrapped classes.
 */
module Scenarios {
  import opened Wrappers
  import opened JsValues
  import Numbers
  import Trap
  import Decorator

  const DATA := Name("_data")
  const PUSH_ID: nat := 0
  const MY_DATA_CTOR: nat := 0
  const MY_DATA2_CTOR: nat := 1

  /** `new MyData(name)`: an empty `_data`, a `name` getter that reads the name given, and `push`. */
  function MyDataInstance(name: Value): (o: Obj)
    ensures Lookup(o, DATA) == Array([])
    ensures Lookup(o, Name("name")) == name
    ensures Lookup(o, Name("push")) == Function(Native(PUSH_ID))
    ensures !IsCallable(Lookup(o, Name("at")))
  {
    Obj(map[DATA := Array([]), Name("_name") := name],
        map[Name("name") := Getter(Name("_name")), Name("push") := Method(Native(PUSH_ID))])
  }

  /** `new MyData2()`: an empty `_data`, a `data` getter that reads it, `push`, and `at` indexing `_data`. */
  function MyData2Instance(): (o: Obj)
    ensures Lookup(o, DATA) == Array([])
    ensures Lookup(o, Name("data")) == Lookup(o, DATA)
    ensures Lookup(o, Name("push")) == Function(Native(PUSH_ID))
    ensures Lookup(o, Name("at")) == Function(ElementOf(DATA))
  {
    Obj(map[DATA := Array([])],
        map[Name("data") := Getter(DATA), Name("push") := Method(Native(PUSH_ID)), Name("at") := Method(ElementOf(DATA))])
  }

  /**
   * The two constructors; any other constructor id is not a constructor. Both
   * start with an empty `_data`, and `MyData` keeps its first argument as its name.
   */
  function Build(ctor: nat, args: seq<Value>): (r: Completion<Obj>)
    ensures r.Normal? <==> ctor == MY_DATA_CTOR || ctor == MY_DATA2_CTOR
    ensures r.Normal? ==> Lookup(r.value, DATA) == Array([])
    ensures ctor == MY_DATA_CTOR && |args| > 0 ==> Lookup(r.value, Name("name")) == args[0]
  {
    if ctor == MY_DATA_CTOR then Normal(MyDataInstance(if |args| > 0 then args[0] else Undefined))
    else if ctor == MY_DATA2_CTOR then Normal(MyData2Instance())
    else Throw(TypeError)
  }

  /** No native function is reached through `at` in the tests. */
  function CallNative(id: nat, receiver: Obj, n: int): Completion<Value> {
    Throw(TypeError)
  }

  const TestHost := Host(CallNative, Build)

  /**
   * `push(...values)`, `this._data.push(...values)`: append to the array in
   * `_data`; a `_data` that is not an array has no `push` to call.
   */
  function Push(o: Obj, values: seq<Value>): (r: Completion<Obj>)
    ensures DATA in o.own && o.own[DATA].Array? <==> r.Normal?
    ensures r.Normal? ==> r.value.proto == o.proto && r.value.own.Keys == o.own.Keys
    ensures r.Normal? ==> Lookup(r.value, DATA) == Array(o.own[DATA].elements + values)
    ensures r.Normal? ==> forall k :: k in o.own && k != DATA ==> r.value.own[k] == o.own[k]
  {
    if DATA in o.own && o.own[DATA].Array? then
      Normal(Obj(o.own[DATA := Array(o.own[DATA].elements + values)], o.proto))
    else Throw(TypeError)
  }

  /**
   * `d.push(...)` through the proxy reaches the raw instance's `push`, and the
   * `this._data` it reads is the raw instance's field: neither key is an integer.
   */
  lemma PushReachesRawInstance(p: Trap.Proxied, host: Host)
    ensures Trap.Get(p, Name("push"), host) == Normal(Lookup(p.target, Name("push")))
    ensures Trap.Get(p, DATA, host) == Normal(Lookup(p.target, DATA))
  {
    Numbers.NonNumericStart("push");
    Numbers.NonNumericStart("_data");
  }

  /**
   * Values appended to `_data` read back at the indices after the old ones, both
   * with `clsProp` `_data` and, with no `clsProp`, through an `at` that indexes `_data`.
   */
  lemma {:induction false} AppendedValuesReadBack(clsProp: Option<Key>, o: Obj, values: seq<Value>, i: nat, host: Host)
    requires DATA in o.own && o.own[DATA].Array?
    requires clsProp == Some(DATA) || (clsProp == None && Name("at") !in o.own && Name("at") in o.proto
      && o.proto[Name("at")] == Method(ElementOf(DATA)))
    requires i < |values|
    ensures Push(o, values).Normal?
    ensures var n := |o.own[DATA].elements| + i;
      Trap.NumericGet(clsProp, Push(o, values).value, Name(Numbers.IntToString(n)), host) == Normal(values[i])
  {
    var pushed := Push(o, values).value;
    var n := |o.own[DATA].elements| + i;
    PushedElement(o, values, i);
    if clsProp == Some(DATA) {
      Trap.ArrayFieldIndex(clsProp, pushed, host, n);
    } else {
      assert Lookup(pushed, Name("at")) == Function(ElementOf(DATA));
      AtIndex(clsProp, pushed, host, n);
    }
  }

  /** After a push, `_data` holds the old elements followed by the pushed ones. */
  lemma PushedElement(o: Obj, values: seq<Value>, i: nat)
    requires DATA in o.own && o.own[DATA].Array? && i < |values|
    ensures Push(o, values).Normal?
    ensures var xs := Lookup(Push(o, values).value, DATA);
      xs.Array? && |o.own[DATA].elements| + i < |xs.elements| && xs.elements[|o.own[DATA].elements| + i] == values[i]
  {
    var xs := o.own[DATA].elements + values;
    assert xs[|o.own[DATA].elements| + i] == values[i];
  }

  /** With no `clsProp`, the key `String(n)` reads element `n` of `_data` through an `at` that indexes it. */
  lemma AtIndex(clsProp: Option<Key>, target: Obj, host: Host, n: int)
    requires clsProp == None && Lookup(target, Name("at")) == Function(ElementOf(DATA))
    requires Lookup(target, DATA).Array? && 0 <= n < |Lookup(target, DATA).elements|
    ensures Trap.NumericGet(clsProp, target, Name(Numbers.IntToString(n)), host) == Normal(Lookup(target, DATA).elements[n])
  {
    Numbers.IntToStringRoundTrip(n);
    Trap.AtRouting(clsProp, target, Name(Numbers.IntToString(n)), host, n);
  }

  // ---------------------------------------------------------------------
  // The test suites
  // ---------------------------------------------------------------------

  lemma DigitKeys()
    ensures Numbers.ToInteger("0") == Some(0) && Numbers.ToInteger("1") == Some(1)
    ensures Numbers.ToInteger("2") == Some(2) && Numbers.ToInteger("3") == Some(3)
  {
    Numbers.IntToStringRoundTrip(0);
    assert Numbers.IntToString(0) == "0";
    Numbers.IntToStringRoundTrip(1);
    assert Numbers.IntToString(1) == "1";
    Numbers.IntToStringRoundTrip(2);
    assert Numbers.IntToString(2) == "2";
    Numbers.IntToStringRoundTrip(3);
    assert Numbers.IntToString(3) == "3";
  }

  /** `MyData` wrapped on `_data`: the `name` getter still reads the constructor argument. */
  lemma NameGetterUnaffected(name: string)
    ensures var d := Trap.Construct(Trap.Subscriptable(Class(MY_DATA_CTOR), Some(DATA)), [String(name)], TestHost);
      d.Normal? && Trap.Get(d.value, Name("name"), TestHost) == Normal(String(name))
  {
    Numbers.NonNumericStart("name");
  }

  /** A `MyData` wrapped on `_data`, and one wrapped with no `clsProp`, as the tests build them. */
  function Fresh(ctor: nat, clsProp: Option<Key>, args: seq<Value>): (d: Trap.Proxied)
    requires ctor == MY_DATA_CTOR || ctor == MY_DATA2_CTOR
    ensures d.target == Build(ctor, args).value && d.clsProp == clsProp
  {
    Trap.Construct(Trap.Subscriptable(Class(ctor), clsProp), args, TestHost).value
  }

  /** The instance after `d.push(0, 1, 2)`. */
  function PushedZeroOneTwo(d: Trap.Proxied): Trap.Proxied
    requires DATA in d.target.own && d.target.own[DATA].Array?
  {
    Trap.Proxied(Push(d.target, [Number(0), Number(1), Number(2)]).value, d.clsProp)
  }

  /** After `push(0, 1, 2)` onto an empty `_data`, the keys `"0"`, `"1"`, `"2"` read 0, 1, 2. */
  lemma ZeroOneTwoReadBack(clsProp: Option<Key>, o: Obj)
    requires DATA in o.own && o.own[DATA] == Array([])
    requires clsProp == Some(DATA) || (clsProp == None && Name("at") !in o.own && Name("at") in o.proto
      && o.proto[Name("at")] == Method(ElementOf(DATA)))
    ensures var pushed := Push(o, [Number(0), Number(1), Number(2)]).value;
      && Trap.NumericGet(clsProp, pushed, Name("0"), TestHost) == Normal(Number(0))
      && Trap.NumericGet(clsProp, pushed, Name("1"), TestHost) == Normal(Number(1))
      && Trap.NumericGet(clsProp, pushed, Name("2"), TestHost) == Normal(Number(2))
  {
    var values := [Number(0), Number(1), Number(2)];
    AppendedValuesReadBack(clsProp, o, values, 0, TestHost);
    assert Numbers.IntToString(0) == "0";
    AppendedValuesReadBack(clsProp, o, values, 1, TestHost);
    assert Numbers.IntToString(1) == "1";
    AppendedValuesReadBack(clsProp, o, values, 2, TestHost);
    assert Numbers.IntToString(2) == "2";
  }

  /** `MyData` wrapped on `_data`: index 0 is undefined before any push. */
  lemma FieldScenarioEmpty(name: string)
    ensures Trap.Get(Fresh(MY_DATA_CTOR, Some(DATA), [String(name)]), Name("0"), TestHost) == Normal(Undefined)
  {
    DigitKeys();
  }

  /** `MyData` wrapped on `_data`: after `push(0, 1, 2)`, indices 0, 1, 2 read 0, 1, 2. */
  lemma FieldScenarioPushed(name: string)
    ensures var d := PushedZeroOneTwo(Fresh(MY_DATA_CTOR, Some(DATA), [String(name)]));
      && Trap.Get(d, Name("0"), TestHost) == Normal(Number(0))
      && Trap.Get(d, Name("1"), TestHost) == Normal(Number(1))
      && Trap.Get(d, Name("2"), TestHost) == Normal(Number(2))
  {
    ZeroOneTwoReadBack(Some(DATA), MyDataInstance(String(name)));
  }

  /** `MyData` wrapped on `_data`: after `push(0, 1, 2)`, index 3 is past the end and reads undefined. */
  lemma FieldScenarioPastEnd(name: string)
    ensures var d := PushedZeroOneTwo(Fresh(MY_DATA_CTOR, Some(DATA), [String(name)]));
      Trap.Get(d, Name("3"), TestHost) == Normal(Undefined)
  {
    DigitKeys();
    var d := PushedZeroOneTwo(Fresh(MY_DATA_CTOR, Some(DATA), [String(name)]));
    assert Lookup(d.target, DATA) == Array([Number(0), Number(1), Number(2)]);
  }

  /** `MyData2` with no `clsProp`: index 0 is undefined before a push, read through `at`. */
  lemma AtScenarioEmpty()
    ensures Trap.Get(Fresh(MY_DATA2_CTOR, None, []), Name("0"), TestHost) == Normal(Undefined)
  {
    DigitKeys();
  }

  /** `MyData2` with no `clsProp`: after `push(0, 1, 2)`, `at` gives indices 0, 1, 2 the values 0, 1, 2. */
  lemma AtScenarioPushed()
    ensures var d := PushedZeroOneTwo(Fresh(MY_DATA2_CTOR, None, []));
      && Trap.Get(d, Name("0"), TestHost) == Normal(Number(0))
      && Trap.Get(d, Name("1"), TestHost) == Normal(Number(1))
      && Trap.Get(d, Name("2"), TestHost) == Normal(Number(2))
  {
    ZeroOneTwoReadBack(None, MyData2Instance());
  }

  /** The instance `new MyData(name)` or `new MyData2()` through a class decorated with `@subscriptable(clsProp)`. */
  function FreshDecorated(ctor: nat, clsProp: Option<Key>, args: seq<Value>): (d: Decorator.DecoratedInstance)
    requires ctor == MY_DATA_CTOR || ctor == MY_DATA2_CTOR
    ensures d.target == Build(ctor, args).value && d.clsProp == clsProp
  {
    Decorator.Construct(Decorator.Subscriptable(clsProp)(Class(ctor)), args, TestHost).value
  }

  /** The decorated instance after `d.push(0, 1, 2)`. */
  function PushedDecorated(d: Decorator.DecoratedInstance): Decorator.DecoratedInstance
    requires DATA in d.target.own && d.target.own[DATA].Array?
  {
    Decorator.DecoratedInstance(Push(d.target, [Number(0), Number(1), Number(2)]).value, d.clsProp)
  }

  /**
   * `@subscriptable('_data') class MyData`: `name` reads the constructor argument,
   * index 0 is undefined before a push, and 0, 1, 2 read back after `push(0, 1, 2)`.
   */
  lemma DecoratedFieldScenario(name: string)
    ensures Decorator.Get(FreshDecorated(MY_DATA_CTOR, Some(DATA), [String(name)]), Name("name"), TestHost)
      == Normal(String(name))
    ensures Decorator.Get(FreshDecorated(MY_DATA_CTOR, Some(DATA), [String(name)]), Name("0"), TestHost)
      == Normal(Undefined)
    ensures var d := PushedDecorated(FreshDecorated(MY_DATA_CTOR, Some(DATA), [String(name)]));
      && Decorator.Get(d, Name("0"), TestHost) == Normal(Number(0))
      && Decorator.Get(d, Name("1"), TestHost) == Normal(Number(1))
      && Decorator.Get(d, Name("2"), TestHost) == Normal(Number(2))
  {
    NameGetterUnaffected(name);
    FieldScenarioEmpty(name);
    FieldScenarioPushed(name);
  }

  /** `@subscriptable() class MyData2`: reads go through `at`, undefined before a push and 0, 1, 2 after. */
  lemma DecoratedAtScenario()
    ensures Decorator.Get(FreshDecorated(MY_DATA2_CTOR, None, []), Name("0"), TestHost) == Normal(Undefined)
    ensures var d := PushedDecorated(FreshDecorated(MY_DATA2_CTOR, None, []));
      && Decorator.Get(d, Name("0"), TestHost) == Normal(Number(0))
      && Decorator.Get(d, Name("1"), TestHost) == Normal(Number(1))
      && Decorator.Get(d, Name("2"), TestHost) == Normal(Number(2))
  {
    AtScenarioEmpty();
    AtScenarioPushed();
  }
}
