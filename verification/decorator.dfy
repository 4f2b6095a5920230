/**
 * The class decorator `subscriptable(clsProp?)` of src/index.ts. It carries
 * its own copy of the numeric `get` handler and of the `construct` handler,
 * and returns the function that puts a class behind them.
 */
module Decorator {
  import opened Wrappers
  import opened JsValues
  import Trap

  /** The decorator's `get` handler; it routes every key exactly as the trap's handler does. */
  function NumericGet(clsProp: Option<Key>, target: Obj, propKey: Key, host: Host): (r: Completion<Value>)
    ensures r == Trap.NumericGet(clsProp, target, propKey, host)
  {
    match propKey
    case Symbol(_) => Throw(TypeError)
    case Name(_) =>
      match Trap.IntegerKey(propKey)
      case Some(n) =>
        if IsTruthy(clsProp) then Normal(OptionalIndex(Lookup(target, clsProp.value), n))
        else
          var at := Lookup(target, Name("at"));
          if IsCallable(at) then Invoke(at.code, target, n, host) else Normal(Lookup(target, propKey))
      case None => Normal(Lookup(target, propKey))
  }

  /** An instance built through a decorated class. */
  datatype DecoratedInstance = DecoratedInstance(target: Obj, clsProp: Option<Key>)

  /** A decorated class: the original class behind the decorator's `construct` handler. */
  datatype DecoratedClass = DecoratedClass(cls: Class, clsProp: Option<Key>)

  /**
   * `subscriptable(clsProp)`: the decorator, a function from classes to
   * decorated classes; constructing a decorated class runs the original
   * constructor and overlays what it builds with `clsProp`.
   */
  function Subscriptable(clsProp: Option<Key>): (decorate: Class -> DecoratedClass)
    ensures forall cls: Class :: decorate(cls).clsProp == clsProp
    ensures forall cls: Class, args: seq<Value>, host: Host ::
      (Construct(decorate(cls), args, host).Throw? <==> host.build(cls.ctor, args).Throw?)
      && (Construct(decorate(cls), args, host).Normal? ==>
            Construct(decorate(cls), args, host).value.target == host.build(cls.ctor, args).value)
  {
    cls => DecoratedClass(cls, clsProp)
  }

  function Get(d: DecoratedInstance, propKey: Key, host: Host): Completion<Value> {
    NumericGet(d.clsProp, d.target, propKey, host)
  }

  /** The decorator's `construct` handler. */
  function Construct(dc: DecoratedClass, args: seq<Value>, host: Host): (r: Completion<DecoratedInstance>)
    ensures host.build(dc.cls.ctor, args).Throw? <==> r.Throw?
    ensures r.Throw? ==> r.error == host.build(dc.cls.ctor, args).error
    ensures r.Normal? ==> r.value.target == host.build(dc.cls.ctor, args).value && r.value.clsProp == dc.clsProp
  {
    match host.build(dc.cls.ctor, args)
    case Normal(instance) => Normal(DecoratedInstance(instance, dc.clsProp))
    case Throw(e) => Throw(e)
  }

  /**
   * Decorating a class with `subscriptable(clsProp)` and trapping it with
   * `trap(cls, clsProp)` give the same constructor outcome, and instances
   * that read every key alike.
   */
  lemma AgreesWithTrap(clsProp: Option<Key>, cls: Class, args: seq<Value>, host: Host, prop: Key)
    ensures var viaDecorator := Construct(Subscriptable(clsProp)(cls), args, host);
      var viaTrap := Trap.Construct(Trap.Subscriptable(cls, clsProp), args, host);
      && (viaDecorator.Throw? <==> viaTrap.Throw?)
      && (viaDecorator.Throw? ==> viaDecorator.error == viaTrap.error)
      && (viaDecorator.Normal? ==> Get(viaDecorator.value, prop, host) == Trap.Get(viaTrap.value, prop, host))
  {
  }
}
