# subscriptable — a Dafny model of the property-read routing

`subscriptable` makes the instances of a class readable with integer subscripts.
It works in two forms. The trap form, `subscriptable(cls, clsProp?)` in `src/trap.ts`, wraps an existing class. The decorator form, `@subscriptable(clsProp?)` in `src/index.ts`, does the same at the class definition. Each wrapped class traps `construct`, and wraps every fresh instance in a proxy whose `get` handler routes a key `prop` as follows:

1. it computes `Number(prop)`;
2. if that is an integer `n` and `clsProp` is truthy, the result is `instance[clsProp]?.[n]`;
3. if that is an integer `n`, `clsProp` is falsy and `instance.at` is callable, the result is `at.call(instance, n)`;
4. in every other case the result is the ordinary `Reflect.get(instance, prop)`.

The model is pure: objects are values, and a read is a function of the instance, the configuration and the key.

- `wrappers.dfy` (`Wrappers`) holds `Option`.
- `numbers.dfy` (`Numbers`) holds `ToInteger`. It models `Number(s)` followed by `Number.isInteger`, using the StringNumericLiteral grammar of section 7.1.4.1 of ECMA-262. That grammar covers white space, sign, decimal point, exponent, `Infinity` and the `0x`/`0o`/`0b` prefixes. The module also holds `IntToString`, the key an integer index becomes, and their round trip.
- `js_values.dfy` (`JsValues`) holds keys, values, instances (`own` properties plus a flattened prototype of methods and field getters) and `Lookup` for `Reflect.get`. It also holds `v?.[n]`, the truthiness of `clsProp`, the callability probe, and `Invoke` for `at.call`. The host is a parameter, `Host`. It supplies the behaviour of native functions and of constructors.
- `trap.dfy` (`Trap`) holds the trap's `get` handler (`NumericGet`), its `construct` handler and the routing properties.
- `decorator.dfy` (`Decorator`) holds the decorator's own copy of both handlers. It proves that the copy routes every key, and constructs every class, exactly as the trap does.
- `scenarios.dfy` (`Scenarios`) holds the test classes `MyData` and `MyData2`, their `push`, and the reads the test suites make.

Behaviour of the code worth noting:

- **Symbol keys throw.** A symbol key does not fall through to the ordinary lookup. `Number(symbol)` throws a `TypeError` before any routing, so every symbol-keyed read through the proxy throws (`Trap.NumericGet`).
- **No sign check.** Negative integer keys are routed like any others (`Trap.NegativeIndexRouted`).
- **Missing `at`.** With no callable `at`, an integer key falls through to the ordinary lookup of the original key (`Trap.AtFallthrough`).
- **The `at` path can throw.** A user `at` may throw. So may the tests' `at` when `_data` is nullish, because `this._data[index]` has no optional chaining. Only the field path never throws.
- **More keys count as integers.** The empty key, `" 2 "`, `"1.0"`, `"02"` and `"0x1F"` are all integers to `Number`, so they are routed.

## Model

| member | source | states |
|---|---|---|
| Numbers.ToInteger | src/trap.ts:35-37 | a key made only of white space, the empty key included, is the integer 0 (the rows below characterise the other keys) |
| Numbers.IntToString | src/trap.ts:39 | `String(n)` starts with a minus sign exactly when `n` is negative, followed by a non-empty, all-digit numeral with no leading zero whose value is `abs(n)` |
| Numbers.IntToStringRoundTrip | src/trap.ts:35-39 | for every integer `n`, `ToInteger(IntToString(n))` is `Some(n)`: the key `String(n)` is an integer key whose value is exactly `n` |
| Numbers.DigitKey | src/trap.ts:35-37 | a key made of decimal digits, leading zeros allowed, is the integer those digits denote |
| Numbers.LeadingZerosIgnored | src/trap.ts:35-37 | a zero-padded numeral (`"02"`) coerces to the same integer as the plain one (`"2"`) |
| Numbers.NonNumericStart | src/trap.ts:35-37 | a key whose first character cannot begin a numeric literal (`"name"`, `"push"`, `"length"`) is not an integer |
| Numbers.PaddedKeyIsTrimmed | src/trap.ts:35-37 | for white-space-only `w1` and `w2` and a key `s` that neither starts nor ends with white space, `w1 + s + w2` coerces exactly as `s` does |
| Numbers.ZeroFractionKey | src/trap.ts:35-37 | `whole.000` is the integer `whole` |
| Numbers.NonZeroFractionKey | src/trap.ts:35-37 | a key whose fraction ends in a non-zero digit (`"1.5"`) is not an integer |
| Numbers.NonDecimalKey | src/trap.ts:35-37 | `0x`/`0o`/`0b` keys are the integer their digits denote in base 16/8/2 |
| JsValues.Lookup | src/trap.ts:39-46 | `Reflect.get` gives the own property when there is one, the prototype's method as a function value when there is no own one, and `undefined` when the key is on neither |
| JsValues.IsTruthy | src/trap.ts:38 | `if (clsProp)`: an absent `clsProp` and the empty string are falsy; a non-empty string and every symbol are truthy |
| JsValues.IsCallable | src/trap.ts:42 | the callability probe rejects `undefined`, `null`, booleans, numbers, strings, arrays and plain objects, and accepts every function value |
| JsValues.Index | src/trap.ts:39 | `v[n]` on an array is element `n` inside the bounds and `undefined` outside; on a string, `undefined` outside its bounds; on a plain object, the property under the key `String(n)` |
| JsValues.OptionalIndex | src/trap.ts:39 | `v?.[n]` is `undefined` on a nullish `v`, and on an array is element `n` inside the bounds and `undefined` outside |
| JsValues.Invoke | src/trap.ts:43 | `at.call(instance, n)` for the tests' `at` shape reads element `n` of the field, and throws a `TypeError` when that field is nullish |
| Trap.IntegerKey | src/trap.ts:35-37 | only a string key can be an integer key (a symbol never is), and a key made of decimal digits is the integer those digits denote |
| Trap.NumericGet | src/trap.ts:33-48 | a symbol key throws a `TypeError`; a non-integer key reads exactly what the raw instance holds; the field path never throws; on a string key, only a callable `at` can make a read throw |
| Trap.FieldRouting | src/trap.ts:37-39 | with a truthy `clsProp`, an integer key `n` reads `instance[clsProp]?.[n]` |
| Trap.NullishFieldReadsUndefined | src/trap.ts:39 | a null or undefined `clsProp` field makes an integer read `undefined`, not an error |
| Trap.ArrayFieldIndex | src/trap.ts:37-39 | reading index `n` over an array field gives its element `n` inside the bounds and `undefined` outside, e.g. index 0 of an empty array |
| Trap.FieldPathIgnoresRest | src/trap.ts:38-41 | with a truthy `clsProp`, an integer read depends only on the value of that field, so `at` is never consulted even when it exists |
| Trap.AtRouting | src/trap.ts:41-44 | with a falsy `clsProp` and a callable `at`, an integer key `n` reads `at.call(instance, n)` |
| Trap.AtFallthrough | src/trap.ts:42-46 | with a falsy `clsProp` and no callable `at`, an integer key reads the ordinary lookup of the original key |
| Trap.SameIntegerSameRead | src/trap.ts:35-44 | once a key is routed, two keys with the same integer value read the same result |
| Trap.ZeroPaddedKeyAliases | src/trap.ts:35-39 | `"02"` reads what `"2"` reads whenever keys are routed |
| Trap.NamedKeyPassesThrough | src/trap.ts:37-46 | named keys read exactly the raw instance's value, whatever `clsProp` is |
| Trap.FractionalKeyPassesThrough | src/trap.ts:37-46 | a fractional numeric key (`"1.5"`) reads exactly the raw instance's value |
| Trap.NegativeIndexRouted | src/trap.ts:37-44 | a negative index is routed to the field or to `at` like any other integer, shadowing an own property of that name |
| Trap.Construct | src/trap.ts:50-58 | the wrapped constructor builds the instance with the original constructor and the same arguments, overlays that instance with the configured `clsProp`, and propagates a constructor exception unchanged |
| Trap.Subscriptable | src/trap.ts:60 | the wrapped class keeps `clsProp`; constructing it throws exactly when the original constructor throws, and otherwise overlays the instance that constructor built |
| Trap.ConstructedPassThrough | src/trap.ts:46-56 | a constructed instance reads every non-integer string key exactly as an unwrapped instance built from the same arguments |
| Decorator.NumericGet | src/index.ts:34-49 | the decorator's handler returns the same result as the trap's handler for every configuration, instance and key |
| Decorator.Subscriptable | src/index.ts:61-63 | the decorator maps every class to a decorated class that keeps `clsProp`; constructing it throws exactly when the original constructor throws, and otherwise overlays the instance that constructor built |
| Decorator.Construct | src/index.ts:51-59 | the decorator's `construct` handler overlays the instance the original constructor built, and propagates its exceptions unchanged |
| Decorator.AgreesWithTrap | src/index.ts:33-64 | decorating a class and trapping it give the same constructor outcome and instances that read every key alike |
| Scenarios.MyDataInstance | test/trap.test.ts:5-20 | a fresh `MyData` has an empty `_data`, a `name` that reads the name given, a `push` method and no callable `at` |
| Scenarios.MyData2Instance | test/trap.test.ts:46-60 | a fresh `MyData2` has an empty `_data`, a `data` getter that reads `_data`, a `push` method, and an `at` that indexes `_data` |
| Scenarios.Build | test/trap.test.ts:6-11 | exactly the two test classes construct; both start with an empty `_data`, and `MyData` reads its first argument back as `name` |
| Scenarios.Push | test/trap.test.ts:17-19 | on an array `_data`, `push` appends the values to it and leaves every other field and the prototype alone; any other `_data` makes it throw a `TypeError` |
| Scenarios.PushReachesRawInstance | src/trap.ts:46 | `d.push` and the `this._data` it reads pass through the proxy to the raw instance |
| Scenarios.AppendedValuesReadBack | src/index.ts:38-45 | after a push, the index just past the old elements plus `i` reads the `i`-th pushed value, through `_data` and also through an `at` that indexes `_data` |
| Scenarios.NameGetterUnaffected | test/trap.test.ts:25-28 | the `name` getter of a wrapped `MyData` still returns the constructor argument |
| Scenarios.FieldScenarioEmpty | test/trap.test.ts:30-33 | index 0 of a fresh wrapped `MyData` is `undefined` |
| Scenarios.FieldScenarioPushed | test/trap.test.ts:35-42 | after `push(0, 1, 2)`, indices 0, 1, 2 read 0, 1, 2 |
| Scenarios.FieldScenarioPastEnd | src/trap.ts:39 | after `push(0, 1, 2)`, index 3 is past the end of `_data` and reads `undefined` |
| Scenarios.AtScenarioEmpty | test/trap.test.ts:62-68 | with no `clsProp`, index 0 of a fresh `MyData2` read through `at` is `undefined` |
| Scenarios.AtScenarioPushed | test/trap.test.ts:70-75 | with no `clsProp`, after `push(0, 1, 2)`, indices 0, 1, 2 read 0, 1, 2 through `at` |
| Scenarios.DecoratedFieldScenario | test/index.test.ts:25-42 | `@subscriptable('_data')`: `name` is unaffected, index 0 is `undefined` before a push, and 0, 1, 2 read back after it |
| Scenarios.DecoratedAtScenario | test/index.test.ts:63-75 | `@subscriptable()`: index 0 is `undefined` before a push, and 0, 1, 2 read back through `at` after it |

## Left out

- **Proxy and `Reflect` machinery.** `Proxy`/`Reflect` are host semantics. `instanceof`, the real prototype chain, receivers other than the raw instance, and the write, delete and enumeration traps are not modelled. `Lookup` reads own properties and then one flattened prototype.
- **Getters.** A getter is modelled only as "return one own field of the receiver". That is the shape of `name` and `data` in the tests. Arbitrary getter code is not modelled.
- **Floating point.** `Numbers.ToInteger` uses exact rational arithmetic. Floating-point rounding, overflow to `Infinity`, underflow to 0, and integers above 2^53 losing precision are not modelled. For example, `"1e400"` is an integer here, while in JavaScript it is `Infinity`.
- **`String(n)` for large indices.** `Numbers.IntToString` writes every integer in plain decimal. JavaScript switches to exponent notation from 10^21 on.
- **Only integral numbers.** `Number` values carry integers only. The routing never produces any other kind, and the scenarios store none.
- **User functions.** User functions other than the tests' `at(i) { return this._data[i]; }` shape, and all class constructors, are opaque. Their results come from the `Host` parameter. The model does not capture any state such a function changes.
- **No mutation.** Reads cannot change the instance, because objects are values. That is the model's statement of "a read on the field path changes nothing". For the same reason, two constructed instances cannot share state, so no lemma states independence across constructions. Aliasing is not modelled.
- **Identifiers, not code.** Classes and native functions are identified by numbers, and the tests' `push` is applied directly as `Scenarios.Push` rather than through a call.
- **Static members.** The wrapped class at src/trap.ts:60 (and src/index.ts) is a proxy with only a `construct` trap, so static reads are forwarded to the original class by the host's `Proxy`. That forwarding is host semantics: classes are modelled only by their constructor, and no static read is modelled or proved.
- JsValues.Index: strings are sequences of Unicode code points, as Dafny strings are, not of UTF-16 code units as in JavaScript. So `"\u{1F600}"[1]` is a lone surrogate in JavaScript but `undefined` here, and a delegate field holding characters outside the Basic Multilingual Plane is read differently on the field path (src/trap.ts:39).
- Scenarios.Push: a `_data` that is not an array but has a callable `push` of its own is not modelled; `Scenarios.Push` throws a `TypeError` for every non-array `_data`. The test classes only ever hold an array there.
- **Callability probe.** The `typeof at === 'function'` / `Object.prototype.toString` test is the single predicate `JsValues.IsCallable`.
- **Decorator attachment.** Decorator syntax and the TypeScript types are left out. The decorator is the function `Decorator.Subscriptable` from a class to the decorated class.
