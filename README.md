# Jawr build context, modelled in Dafny

Jawr bundles the JavaScript, CSS and binary resources of a web application.
While it processes bundles it keeps the shared state of that run in one
`JawrContext` object. The object holds:

- the JMX object name of the config-manager MBean;
- whether the debug setting is overridden;
- whether bundles are processed at build time rather than at request time;
- the current request URL;
- the stop watch that times the processing;
- an interrupt flag that asks the processing to stop.

Each field has a getter and a setter. `reset()` puts all six back to their
initial values.

The project has three modules:

- `Wrappers` (`wrappers.dfy`): `Option`. `None` stands for a Java `null`.
- `JawrContextSpec` (`jawr_context_spec.dfy`): the value-level specification.
  - `ContextState` is a snapshot of the six fields. `Initial()` is the state of a new context.
  - `Call` has one constructor per mutator. `Step` gives the effect of one call.
  - `Run` performs a sequence of calls in order.
  - `LatestWrite` / `LatestState` is an independent reference definition: a field holds the value most recently written to it.
  - The lemmas connect `Run` to that reference and state the reset and idempotence properties.
- `JawrContexts` (`jawr_context.dfy`): the class `JawrContext`.
  - It has one mutable field per Java field.
  - Each setter's `modifies` frame names its own field and the ghost field `history`, nothing else. Its `ensures` ties the new state to `Step` of the old state.
  - A ghost field `history` records the calls made on the object since construction. The invariant `Valid()` says the fields equal `Run(Initial(), history)`. Every mutator appends its call to `history` and keeps `Valid()`.
  - The getters are methods without a `modifies` clause, so they cannot change any state. Each one states that it returns the value last written to its field in `history`.
  - No setter restricts its argument. Java's setters accept `null` for the object name, the request URL and the stop watch, and the model accepts `None` for them. The only precondition of any method is the invariant `Valid()`, which the constructor establishes and every method keeps.

`ObjectName` and `StopWatch` are foreign library types. They are opaque types
here. The `AtomicBoolean` interrupt flag is a plain `bool`.

## Model

| member | source | states |
|---|---|---|
| `JawrContexts.JawrContext.constructor` | jawr/jawr-core/src/main/java/net/jawr/web/context/JawrContext.java:32-77 | A new context has no MBean name, no request URL and no stop watch, and all three flags are false (the interrupt flag's initialiser is `false`). This is `Initial()`. |
| `JawrContexts.JawrContext.IsInterruptingProcessingBundle` | jawr/jawr-core/src/main/java/net/jawr/web/context/JawrContext.java:57-59 | Returns the current interrupt flag and changes nothing. It is the value most recently passed to `SetInterruptProcessingBundle` on this object, or false when there was none or a `Reset` came after it. |
| `JawrContexts.JawrContext.SetInterruptProcessingBundle` | jawr/jawr-core/src/main/java/net/jawr/web/context/JawrContext.java:68-70 | Afterwards the flag equals the argument. Only the interrupt field and the ghost `history` may change, and the new state is `Step` of the old one. |
| `JawrContexts.JawrContext.GetJawrConfigMgrObjectName` | jawr/jawr-core/src/main/java/net/jawr/web/context/JawrContext.java:84-86 | Returns the stored MBean object name, possibly absent, and changes nothing. It is the value most recently passed to its setter on this object, or absent when there was none or a `Reset` came after it. |
| `JawrContexts.JawrContext.IsDebugOverriden` | jawr/jawr-core/src/main/java/net/jawr/web/context/JawrContext.java:93-95 | Returns the stored debug-override flag and changes nothing. It is the value most recently passed to its setter on this object, or false when there was none or a `Reset` came after it. |
| `JawrContexts.JawrContext.SetJawrConfigMgrObjectName` | jawr/jawr-core/src/main/java/net/jawr/web/context/JawrContext.java:103-105 | Stores the name, which may be null. Only that field and the ghost `history` may change. |
| `JawrContexts.JawrContext.SetDebugOverriden` | jawr/jawr-core/src/main/java/net/jawr/web/context/JawrContext.java:113-115 | Stores the debug-override flag. Only that field and the ghost `history` may change. |
| `JawrContexts.JawrContext.IsBundleProcessingAtBuildTime` | jawr/jawr-core/src/main/java/net/jawr/web/context/JawrContext.java:124-126 | Returns the stored build-time flag and changes nothing. It is the value most recently passed to its setter on this object, or false when there was none or a `Reset` came after it. |
| `JawrContexts.JawrContext.SetBundleProcessingAtBuildTime` | jawr/jawr-core/src/main/java/net/jawr/web/context/JawrContext.java:135-137 | Stores the build-time flag. Only that field and the ghost `history` may change. |
| `JawrContexts.JawrContext.GetRequestURL` | jawr/jawr-core/src/main/java/net/jawr/web/context/JawrContext.java:144-146 | Returns the stored request URL, possibly absent, and changes nothing. It is the value most recently passed to its setter on this object, or absent when there was none or a `Reset` came after it. |
| `JawrContexts.JawrContext.SetRequestURL` | jawr/jawr-core/src/main/java/net/jawr/web/context/JawrContext.java:154-156 | Stores the request URL, which may be null. Only that field and the ghost `history` may change. |
| `JawrContexts.JawrContext.GetStopWatch` | jawr/jawr-core/src/main/java/net/jawr/web/context/JawrContext.java:163-165 | Returns the stored stop watch, possibly absent, and changes nothing. It is the value most recently passed to its setter on this object, or absent when there was none or a `Reset` came after it. |
| `JawrContexts.JawrContext.SetStopWatch` | jawr/jawr-core/src/main/java/net/jawr/web/context/JawrContext.java:173-175 | Stores the stop watch, which may be null. Only that field and the ghost `history` may change. |
| `JawrContexts.JawrContext.Reset` | jawr/jawr-core/src/main/java/net/jawr/web/context/JawrContext.java:180-188 | From any prior state, every field equals its value in a new context (`Initial()`). In particular the interrupt flag is false. |
| `JawrContextSpec.RunIsLatestWrite` | jawr/jawr-core/src/main/java/net/jawr/web/context/JawrContext.java:57-188 | After any sequence of calls, each of the six fields holds the value most recently passed to its setter. If `reset()` came later, the field holds false or null. If no call wrote it, it keeps its earlier value. Getters therefore return the last value set, and no call changes another setter's field. |
| `JawrContextSpec.StepWritesOnlyItsField` | jawr/jawr-core/src/main/java/net/jawr/web/context/JawrContext.java:68-175 | A single setter call writes its own field with its argument and leaves the other five fields unchanged. |
| `JawrContextSpec.StepIdempotent` | jawr/jawr-core/src/main/java/net/jawr/web/context/JawrContext.java:68-188 | Every call is idempotent: making it twice leaves the same state as making it once. This covers `setInterruptProcessingBundle(b)` and `reset()`. |
| `JawrContextSpec.ResetForgetsHistory` | jawr/jawr-core/src/main/java/net/jawr/web/context/JawrContext.java:180-188 | Take any prior calls, then `reset()`, then calls `after`. The result is the state a new context reaches by performing `after`. No state leaks across a reset, the interrupt flag included. |
| `JawrContextSpec.SettersCommute` | jawr/jawr-core/src/main/java/net/jawr/web/context/JawrContext.java:68-175 | Two setters of different fields give the same state in either order. |

## Left out

- Thread safety of the `AtomicBoolean` interrupt flag: cross-thread visibility is a concurrency property. Only its sequential get/set behaviour is modelled, as a `bool`.
- The internals of `ObjectName` (JMX) and `StopWatch`: these are foreign library types. They are opaque types, and `Option` stands for a null reference.
- `WebJarsLocatorBinaryResourceGenerator`: its only code builds a `WebJarsLocatorPathResolver`. That class, its superclass and the WebJars locator library are not part of this model.
