/**
 * `subscriptable(cls, clsProp?)` of src/trap.ts: a class whose instances are
 * overlaid with a `get` trap routing integer keys to the element `n` of the
 * field `clsProp`, or, with no (truthy) `clsProp`, to `at(n)`.
 */
module Trap {
  import opened Wrappers
  import opened JsValues
  import Numbers

  /**
   * A key whose `Number` value is an integer, and that integer. Only string
   * keys qualify, and a key of decimal digits is the integer they denote.
   */
  function IntegerKey(prop: Key): (r: Option<int>)
    ensures r.Some? ==> prop.Name?
    ensures prop.Name? && |prop.s| > 0 && Numbers.AllDigits(prop.s, 10) ==> r == Some(Numbers.DigitsValue(prop.s, 10))
  {
    if prop.Name? then
      if |prop.s| > 0 && Numbers.AllDigits(prop.s, 10) then
        Numbers.DigitKey(prop.s);
        Numbers.ToInteger(prop.s)
      else Numbers.ToInteger(prop.s)
    else None
  }

  /**
   * The `get` trap of the numeric handler: `target` is the raw instance,
   * `prop` the key read through the proxy.
   */
  function NumericGet(clsProp: Option<Key>, target: Obj, prop: Key, host: Host): (r: Completion<Value>)
    // Number(symbol) throws before any routing happens
    ensures prop.Symbol? ==> r == Throw(TypeError)
    // a key that is not an integer reads exactly what the raw instance holds
    ensures prop.Name? && IntegerKey(prop).None? ==> r == Normal(Lookup(target, prop))
    // the delegate-field path never throws, whatever the field holds
    ensures IntegerKey(prop).Some? && IsTruthy(clsProp) ==> r.Normal?
    // the only other source of an exception is a callable `at`
    ensures r.Throw? && prop.Name? ==> !IsTruthy(clsProp) && IsCallable(Lookup(target, Name("at")))
  {
    match prop
    case Symbol(_) => Throw(TypeError)
    case Name(_) =>
      match IntegerKey(prop)
      case Some(n) =>
        if IsTruthy(clsProp) then Normal(OptionalIndex(Lookup(target, clsProp.value), n))
        else
          var at := Lookup(target, Name("at"));
          if IsCallable(at) then Invoke(at.code, target, n, host) else Normal(Lookup(target, prop))
      case None => Normal(Lookup(target, prop))
  }

  /** An instance returned by the wrapped constructor: the proxy over a raw instance. */
  datatype Proxied = Proxied(target: Obj, clsProp: Option<Key>)

  /** The class returned by `subscriptable`: the original class behind a `construct` trap. */
  datatype ProxiedClass = ProxiedClass(cls: Class, clsProp: Option<Key>)

  /**
   * `subscriptable(cls, clsProp)`: constructing the result runs the original
   * constructor of `cls` and overlays what it builds with `clsProp`.
   */
  function Subscriptable(cls: Class, clsProp: Option<Key>): (pc: ProxiedClass)
    ensures pc.clsProp == clsProp
    ensures forall args: seq<Value>, host: Host ::
      (Construct(pc, args, host).Throw? <==> host.build(cls.ctor, args).Throw?)
      && (Construct(pc, args, host).Normal? ==> Construct(pc, args, host).value.target == host.build(cls.ctor, args).value)
  {
    ProxiedClass(cls, clsProp)
  }

  /** A read through the instance proxy. */
  function Get(p: Proxied, prop: Key, host: Host): Completion<Value> {
    NumericGet(p.clsProp, p.target, prop, host)
  }

  /**
   * The `construct` trap: run the original constructor with the same arguments,
   * then wrap the instance it built.
   */
  function Construct(pc: ProxiedClass, args: seq<Value>, host: Host): (r: Completion<Proxied>)
    // a constructor's exception propagates unchanged
    ensures host.build(pc.cls.ctor, args).Throw? <==> r.Throw?
    ensures r.Throw? ==> r.error == host.build(pc.cls.ctor, args).error
    // otherwise the result overlays exactly the instance the constructor built
    ensures r.Normal? ==> r.value.target == host.build(pc.cls.ctor, args).value && r.value.clsProp == pc.clsProp
  {
    match host.build(pc.cls.ctor, args)
    case Normal(instance) => Normal(Proxied(instance, pc.clsProp))
    case Throw(e) => Throw(e)
  }

  // ---------------------------------------------------------------------
  // The field path (truthy clsProp)
  // ---------------------------------------------------------------------

  /** An integer key reads element `n` of the field `clsProp`, through optional chaining. */
  lemma FieldRouting(clsProp: Option<Key>, target: Obj, prop: Key, host: Host, n: int)
    requires IsTruthy(clsProp) && IntegerKey(prop) == Some(n)
    ensures NumericGet(clsProp, target, prop, host) == Normal(OptionalIndex(Lookup(target, clsProp.value), n))
  {
  }

  /** A null or undefined field yields `undefined` rather than an error. */
  lemma NullishFieldReadsUndefined(clsProp: Option<Key>, target: Obj, prop: Key, host: Host)
    requires IsTruthy(clsProp) && IntegerKey(prop).Some? && IsNullish(Lookup(target, clsProp.value))
    ensures NumericGet(clsProp, target, prop, host) == Normal(Undefined)
  {
  }

  /** Reading the index `n` of a delegate array: its element inside the bounds, `undefined` outside. */
  lemma {:induction false} ArrayFieldIndex(clsProp: Option<Key>, target: Obj, host: Host, n: int)
    requires IsTruthy(clsProp) && Lookup(target, clsProp.value).Array?
    ensures var xs := Lookup(target, clsProp.value).elements;
      NumericGet(clsProp, target, Name(Numbers.IntToString(n)), host)
        == Normal(if 0 <= n < |xs| then xs[n] else Undefined)
  {
    Numbers.IntToStringRoundTrip(n);
  }

  /**
   * With a truthy `clsProp`, an integer read depends on nothing but the value of
   * that field: in particular `at` is never consulted.
   */
  lemma FieldPathIgnoresRest(clsProp: Option<Key>, t1: Obj, t2: Obj, prop: Key, host1: Host, host2: Host)
    requires IsTruthy(clsProp) && IntegerKey(prop).Some?
    requires Lookup(t1, clsProp.value) == Lookup(t2, clsProp.value)
    ensures NumericGet(clsProp, t1, prop, host1) == NumericGet(clsProp, t2, prop, host2)
  {
  }

  // ---------------------------------------------------------------------
  // The `at` path (no truthy clsProp)
  // ---------------------------------------------------------------------

  /** An integer key calls a callable `at` with the raw instance as receiver. */
  lemma AtRouting(clsProp: Option<Key>, target: Obj, prop: Key, host: Host, n: int)
    requires !IsTruthy(clsProp) && IntegerKey(prop) == Some(n)
    requires IsCallable(Lookup(target, Name("at")))
    ensures NumericGet(clsProp, target, prop, host) == Invoke(Lookup(target, Name("at")).code, target, n, host)
  {
  }

  /** Without a callable `at`, an integer key falls through to the ordinary lookup of the original key. */
  lemma AtFallthrough(clsProp: Option<Key>, target: Obj, prop: Key, host: Host)
    requires !IsTruthy(clsProp) && IntegerKey(prop).Some?
    requires !IsCallable(Lookup(target, Name("at")))
    ensures NumericGet(clsProp, target, prop, host) == Normal(Lookup(target, prop))
  {
  }

  // ---------------------------------------------------------------------
  // Keys
  // ---------------------------------------------------------------------

  /**
   * Once routed, a read depends on the key only through its integer value: two
   * keys with the same integer value read the same thing on either path.
   */
  lemma SameIntegerSameRead(clsProp: Option<Key>, target: Obj, k1: Key, k2: Key, host: Host)
    requires IntegerKey(k1).Some? && IntegerKey(k1) == IntegerKey(k2)
    requires IsTruthy(clsProp) || IsCallable(Lookup(target, Name("at")))
    ensures NumericGet(clsProp, target, k1, host) == NumericGet(clsProp, target, k2, host)
  {
  }

  /** `"02"` reads what `"2"` reads (any zero-padded numeral aliases its plain form). */
  lemma ZeroPaddedKeyAliases(clsProp: Option<Key>, target: Obj, digits: string, host: Host)
    requires |digits| > 0 && Numbers.AllDigits(digits, 10)
    requires IsTruthy(clsProp) || IsCallable(Lookup(target, Name("at")))
    ensures NumericGet(clsProp, target, Name("0" + digits), host) == NumericGet(clsProp, target, Name(digits), host)
  {
    Numbers.LeadingZerosIgnored(digits);
    Numbers.DigitKey(digits);
  }

  /**
   * Named keys (`"name"`, `"push"`, `"length"`, ...) are never routed: they read
   * what the raw instance holds, whatever `clsProp` is.
   */
  lemma NamedKeyPassesThrough(clsProp: Option<Key>, target: Obj, s: string, host: Host)
    requires |s| > 0 && !Numbers.IsStrWhiteSpace(s[0]) && !Numbers.IsDecimalDigit(s[0])
    requires s[0] != '+' && s[0] != '-' && s[0] != '.'
    ensures NumericGet(clsProp, target, Name(s), host) == Normal(Lookup(target, Name(s)))
  {
    Numbers.NonNumericStart(s);
  }

  /** A numeric key with a non-zero fraction (`"1.5"`) is not routed either. */
  lemma FractionalKeyPassesThrough(clsProp: Option<Key>, target: Obj, whole: string, fraction: string, host: Host)
    requires |whole| > 0 && Numbers.AllDigits(whole, 10) && Numbers.AllDigits(fraction, 10)
    requires |fraction| > 0 && fraction[|fraction| - 1] != '0'
    ensures var k := Name(whole + "." + fraction);
      NumericGet(clsProp, target, k, host) == Normal(Lookup(target, k))
  {
    Numbers.NonZeroFractionKey(whole, fraction);
  }

  /**
   * There is no sign check: a negative index is routed like any other integer,
   * so an own property under that key is shadowed.
   */
  lemma {:induction false} NegativeIndexRouted(clsProp: Option<Key>, target: Obj, host: Host, n: int)
    requires n < 0
    requires IsTruthy(clsProp) || IsCallable(Lookup(target, Name("at")))
    ensures NumericGet(clsProp, target, Name(Numbers.IntToString(n)), host) ==
      if IsTruthy(clsProp) then Normal(OptionalIndex(Lookup(target, clsProp.value), n))
      else Invoke(Lookup(target, Name("at")).code, target, n, host)
  {
    Numbers.IntToStringRoundTrip(n);
  }

  // ---------------------------------------------------------------------
  // Construction
  // ---------------------------------------------------------------------

  /**
   * A constructed instance reads every non-integer key exactly as an unwrapped
   * instance built with the same arguments.
   */
  lemma ConstructedPassThrough(cls: Class, clsProp: Option<Key>, args: seq<Value>, host: Host, prop: Key)
    requires host.build(cls.ctor, args).Normal?
    requires prop.Name? && IntegerKey(prop).None?
    ensures var r := Construct(Subscriptable(cls, clsProp), args, host);
      r.Normal? && Get(r.value, prop, host) == Normal(Lookup(host.build(cls.ctor, args).value, prop))
  {
  }
}
