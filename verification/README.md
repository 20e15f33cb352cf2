# Rhino trust boundary, array iterator, continuation and JavaScript exception — a Dafny model

This project models five small parts of the Rhino scripting engine (package `rhino`).

- **The security controller's caller cache** (`PolicySecurityController.callWithDomain`) and its near twin
  (`SecureCaller.callSecurely`). To run an untrusted callable under a code source, Rhino does four things.
  It defines a tiny trampoline class through a class loader bound to that code source. It instantiates the class.
  It caches the instance in a two-level map: code source → (class loader → soft reference to the caller).
  It then calls the callable through the trampoline, so that the stack frame is attributed to the code source.
- **`NativeArrayIterator`**: an index over an array-like object, in KEYS, VALUES or ENTRIES mode.
- **`NativeContinuation`**: its prototype-id table, its "direct call is not supported" errors and implementation equality.
- **`JavaScriptException`**: fills in a thrown error's `fileName` and `lineNumber` only where they are absent.

Modules:

| module | file | models |
|---|---|---|
| `Wrappers` | wrappers.dfy | Option and Result |
| `Jvm` | jvm.dfy | code sources, class loaders, throwables and the class-file format; `defineClass` and `resolveClass` as functions |
| `Trampoline` | trampoline.dfy | the class file `loadBytecode` emits; an interpreter for the five instructions it uses |
| `CallerCache` | caller_cache.dfy | the two-level cache: the mutable static map (`Cache`), the specification of one lookup-or-synthesize step (`Resolve`) and its properties |
| `PolicySecurityController` | policy_security_controller.dfy | `Loader`, `createClassLoader`, `getDynamicSecurityDomain`, `callWithDomain` |
| `SecureCaller` | secure_caller.dfy | the effective parent loader, `SecureClassLoaderImpl`, `callSecurely` |
| `ScriptValues` | script_values.dfy | script values; a `NativeError` object with its own properties |
| `ArrayIterator` | array_iterator.dfy | `NativeArrayIterator` as a class over a live, shared `ArrayLike` object |
| `Continuation` | continuation.dfy | `NativeContinuation` |
| `JsException` | js_exception.dfy | `JavaScriptException` |

How the platform is represented:

- A cached soft reference is `SoftReference(referent)`. Its referent is `None` once the collector has cleared it.
- The platform's class definition, linking and instantiation are one environment parameter, `instantiation`.
  It either names the new instance or gives the throwable the privileged block throws.
- `cx.getApplicationClassLoader()` is a parameter. So is the thread's context class loader.
- `Callable.call` is a parameter too, `invoke`: a function of the receiver and the four arguments.
- `callWithDomain` and `callSecurely` are imperative methods on the mutable cache. Each is proved to leave the cache
  exactly as one `CallerCache.Resolve` step specifies. When a caller is found or synthesized, each is also proved to
  return exactly what `invoke` returns for `(callable, [cx, scope, thisObj, args])`; otherwise it returns the undeclared
  synthesis failure. The forwarding fact is proved by running the generated `call` method in the interpreter.

Only a checked exception escaping the privileged block reaches the `catch`
(PolicySecurityController.java:110-111, SecureCaller.java:78-79), which rethrows it as
`UndeclaredThrowableException(cause)`. Unchecked exceptions and errors propagate as they are (`Jvm.Undeclare`). Both
controllers handle failures the same way.

## Model

| member | source | states |
|---|---|---|
| `Jvm.Undeclare` | src/rhino/PolicySecurityController.java:109-112 | A checked exception escaping the privileged block becomes `UndeclaredThrowable` carrying that very cause; anything else propagates unchanged; the result is never a checked exception |
| `Trampoline.LoadBytecode` | src/rhino/PolicySecurityController.java:124-154 | The class file emitted, with its `aload 1..5` built by a loop, is exactly the trampoline class: a super-delegating constructor and a final `call` that forwards |
| `Trampoline.ExecLoadSlots` | src/rhino/PolicySecurityController.java:145-147 | Executing the loads of slots lo..hi-1 pushes exactly those locals, in order, and then runs the rest of the code |
| `Trampoline.CallForwards` | src/rhino/PolicySecurityController.java:141-152 | The generated `call` body, on locals `this, callable, cx, scope, thisObj, args`, returns what `callable.call(cx, scope, thisObj, args)` returns, or lets what it throws escape unchanged |
| `Trampoline.InitReturns` | src/rhino/PolicySecurityController.java:129-134 | The generated constructor only invokes the superclass constructor and returns normally |
| `Trampoline.TrampolineForwards` | src/rhino/PolicySecurityController.java:115 | Calling `call` on any instance of the generated class is exactly `callable.call(cx, scope, thisObj, args)`, whatever the instance |
| `CallerCache.Instantiate` | src/rhino/PolicySecurityController.java:107 | `newInstance` fails exactly when the platform fails; on success, the caller is tagged with its class's code source, parent loader and class file |
| `CallerCache.Caller.Call` | src/rhino/PolicySecurityController.java:115 | On an instance of a generated trampoline class, `caller.call(...)` is exactly `callable.call(cx, scope, thisObj, args)` |
| `CallerCache.Resolve` | src/rhino/PolicySecurityController.java:81-113 | One lookup-or-synthesize step: it synthesizes exactly when no live caller is cached for (code source, loader); a hit yields the cached caller; a miss yields the synthesized caller or the undeclared failure; a caller yielded is then cached live under that pair |
| `CallerCache.Outcome` | src/rhino/PolicySecurityController.java:115 | The result of a call through the cache is what calling the resolved trampoline caller returns, or the step's failure when no caller was obtained |
| `CallerCache.ResolveLoaderMap` | src/rhino/PolicySecurityController.java:81-87 | After a step the code source has a loader map; a new (empty) one appears only if there was none; an existing one keeps every entry except possibly the key's; other code sources are untouched |
| `CallerCache.ResolveHit` | src/rhino/PolicySecurityController.java:89-96 | A live cached caller for the loader is returned as it is, with no synthesis and no change to either level of the cache |
| `CallerCache.ResolveMissStores` | src/rhino/PolicySecurityController.java:96-109 | On a miss whose synthesis succeeds, that caller is returned and stored under (code source, loader) alone; every other entry of both levels is unchanged |
| `CallerCache.ResolveMissFails` | src/rhino/PolicySecurityController.java:109-112 | On a miss whose synthesis fails, the step throws the undeclared failure (a checked cause wrapped in `UndeclaredThrowable`); no (code source, loader) entry changes, though an empty loader map may have been added for the code source |
| `CallerCache.ResolveClearedIsMiss` | src/rhino/PolicySecurityController.java:90-96 | A cleared soft reference is treated exactly like a missing entry: same caller or error, same synthesis, same live callers afterwards |
| `CallerCache.ResolveAttributed` | src/rhino/PolicySecurityController.java:100-109 | Callers are never shared across code sources: if every cached caller sits under its own code source, a step keeps it so and yields a caller attributed to the requested code source |
| `CallerCache.ResolveTwice` | src/rhino/PolicySecurityController.java:89-109 | At most one synthesis per pair while the reference lives: right after a step that yields a caller, the next step for the same pair returns that same caller without synthesizing |
| `CallerCache.Cache.constructor` | src/rhino/PolicySecurityController.java:28-30 | The static cache starts empty |
| `CallerCache.Cache.GetOrCreateLoaderMap` | src/rhino/PolicySecurityController.java:81-87 | Returns the code source's loader map; inserts an empty one only when absent; otherwise the cache is unchanged |
| `CallerCache.Cache.Put` | src/rhino/PolicySecurityController.java:109 | Stores the reference under (code source, loader) in the shared loader map; nothing else changes |
| `PolicySecurityController.Loader.DefineClass` | src/rhino/PolicySecurityController.java:46-49 | A `Loader` always defines classes under its own code source and with its own parent |
| `PolicySecurityController.Loader.LinkClass` | src/rhino/PolicySecurityController.java:51-54 | Linking marks the class linked and changes nothing else about it |
| `PolicySecurityController.CreateClassLoader` | src/rhino/PolicySecurityController.java:57-62 | The loader created has the given parent and is bound to the given security domain |
| `PolicySecurityController.GetDynamicSecurityDomain` | src/rhino/PolicySecurityController.java:64-69 | The dynamic security domain is the domain passed in, unchanged |
| `PolicySecurityController.Synthesize` | src/rhino/PolicySecurityController.java:100-108 | Succeeds exactly when instantiation does; the caller is attributed to the requested code source, its parent is the application loader, and its class is the generated trampoline |
| `PolicySecurityController.CallWithDomainKeepsValid` | src/rhino/PolicySecurityController.java:77-109 | A step keeps the invariant that every live caller is the trampoline for the code source and loader it is cached under |
| `PolicySecurityController.CallWithDomain` | src/rhino/PolicySecurityController.java:71-116 | The cache becomes exactly one `Resolve` step keyed by (code source, application loader); the result is the callable's own result or exception, unchanged, or the undeclared synthesis failure; the invariant is kept |
| `SecureCaller.EffectiveParent` | src/rhino/SecureCaller.java:62-68 | The parent is the context loader when it resolves the action's class name to that same class, and the action class's own loader otherwise |
| `SecureCaller.SecureClassLoaderImpl.DefineAndLinkClass` | src/rhino/SecureCaller.java:91-95 | The class returned is defined by this loader, whose parent is `parent`, under the given code source, and it is linked before being returned |
| `SecureCaller.Synthesize` | src/rhino/SecureCaller.java:58-76 | A failing class lookup or instantiation is the failure; otherwise the caller is attributed to the code source, its parent is the effective parent, and its class is the trampoline |
| `SecureCaller.CallSecurelyKeepsValid` | src/rhino/SecureCaller.java:36-77 | A step keeps the invariant that every live caller is the trampoline for the code source it is cached under, with the keyed loader or the action class's loader as parent |
| `SecureCaller.KeyedByContextLoader` | src/rhino/SecureCaller.java:69-77 | A successful miss stores the caller under the original context loader, even when the effective parent is the action class's loader; no other entry changes |
| `SecureCaller.CallSecurely` | src/rhino/SecureCaller.java:31-84 | The cache becomes exactly one `Resolve` step keyed by (code source, context loader); the result is the callable's own result or exception, unchanged, or the undeclared synthesis failure; the invariant is kept |
| `ArrayIterator.StepValue` | src/rhino/NativeArrayIterator.java:43-59 | KEYS yields the index; VALUES yields the element, or Undefined at a hole or past the end; ENTRIES yields the array `[index, that value]` |
| `ArrayIterator.EntryPairsKeyAndValue` | src/rhino/NativeArrayIterator.java:53-55 | An ENTRIES step yields exactly the pair of what a KEYS step and a VALUES step yield at the same index |
| `ArrayIterator.NativeArrayIterator.constructor` | src/rhino/NativeArrayIterator.java:25-30 | A new iterator starts at index 0 over the given array-like and with the given type |
| `ArrayIterator.NativeArrayIterator.GetClassName` | src/rhino/NativeArrayIterator.java:32-35 | The class name is "Array Iterator", in every state |
| `ArrayIterator.NativeArrayIterator.GetTag` | src/rhino/NativeArrayIterator.java:61-64 | The tag is "ArrayIterator", in every state |
| `ArrayIterator.NativeArrayIterator.IsDone` | src/rhino/NativeArrayIterator.java:37-40 | Done exactly when the index has reached the array-like's current length; past that length every lookup is NOT_FOUND |
| `ArrayIterator.NativeArrayIterator.NextValue` | src/rhino/NativeArrayIterator.java:42-59 | Yields the step value at the current index, computed before the increment; the index grows by exactly one; the array-like is never written |
| `Continuation.NativeContinuation.GetImplementation` | src/rhino/NativeContinuation.java:16-18 | Returns the continuation's current implementation, the one `initImplementation` last set |
| `Continuation.NativeContinuation.InitImplementation` | src/rhino/NativeContinuation.java:16-22 | After `initImplementation(impl)`, `getImplementation` returns `impl` |
| `Continuation.NativeContinuation.GetClassName` | src/rhino/NativeContinuation.java:24-27 | The class name is "Continuation", in every state |
| `Continuation.EqualImplementations` | src/rhino/NativeContinuation.java:44-53 | True exactly when both implementations are absent, or both are present and equal |
| `Continuation.Construct` | src/rhino/NativeContinuation.java:29-32 | Constructing always fails with the runtime error "Direct call is not supported" |
| `Continuation.IsContinuationConstructor` | src/rhino/NativeContinuation.java:40-42 | True exactly for a function with the Continuation tag and the constructor id |
| `Continuation.FindPrototypeId` | src/rhino/NativeContinuation.java:86-102 | The id is 1 exactly when the name is "constructor", and 0 for every other name |
| `Continuation.InitPrototypeId` | src/rhino/NativeContinuation.java:55-68 | Id 1 registers "constructor" with arity 0 under the Continuation tag; every other id is an illegal argument carrying that id |
| `Continuation.PrototypeIdRoundTrip` | src/rhino/NativeContinuation.java:55-106 | Name lookup and id registration agree in both directions, and the registering ids are exactly 1..MAX_PROTOTYPE_ID |
| `Continuation.ExecIdCall` | src/rhino/NativeContinuation.java:70-82 | Another tag goes to the superclass unchanged; with this tag the constructor id raises the direct-call error and any other id is an illegal argument; with this tag it never succeeds |
| `Continuation.ConstructorCallIsConstruct` | src/rhino/NativeContinuation.java:76-80 | Calling the constructor function fails exactly as constructing does |
| `JsException.FillLocation` | src/rhino/JavaScriptException.java:29-37 | `fileName` and `lineNumber` are added when absent, and never overwritten when present; every other property is kept |
| `JsException.FillLocationIdempotent` | src/rhino/JavaScriptException.java:32-37 | A second fill-in, from any source name and line, changes nothing: the first recorded location stays |
| `JsException.FillInLocation` | src/rhino/JavaScriptException.java:31-39 | The error's properties become the fill-in of the old ones, and the exception becomes its stack provider |
| `JsException.JavaScriptException.constructor` | src/rhino/JavaScriptException.java:24-41 | `getValue` returns the value passed in. For a NativeError with the location feature on, the location is filled in if absent and the stack provider is set. Otherwise the error's properties are untouched |
| `JsException.JavaScriptException.FromValue` | src/rhino/JavaScriptException.java:16-18 | The deprecated one-argument constructor behaves as `(value, "", 0)` |
| `JsException.JavaScriptException.GetValue` | src/rhino/JavaScriptException.java:64-66 | Returns the value the exception was constructed with |
| `JsException.JavaScriptException.Details` | src/rhino/JavaScriptException.java:43-59 | "null" for null; the value's `toString()` for a NativeError; otherwise the script conversion, falling back to the default object string for a scriptable value or to `toString()` |

## Left out

- Locking: the `synchronized` blocks serialize concurrent resolvers. Each call is modelled as one sequential step.
- Weak keys: `WeakHashMap` entries that disappear when a code source or loader is collected are not modelled.
- Soft references: the collector clearing one is represented only by a `None` referent that the environment has put
  in the state.
- The loader reads: the application loader and the context loader are read under `doPrivileged`. They are parameters,
  and a failure to read them is not modelled.
- Domain type: the `(CodeSource)` cast of the security domain is not modelled. The domain is typed as a code source,
  so a `ClassCastException` cannot occur.
- `getStaticSecurityDomainClassInternal`: it returns a `Class` object through reflection and is not modelled.
- Class bytes: `ClassFileWriter` and its byte serialization are not part of this model. The class file is a
  structured value with the same methods, descriptors, flags, local counts and instructions.
- `SecureCaller.loadBytecode` / `loadBytecodePrivileged`: these read a resource stream. That class file is taken
  to be the trampoline for `rhino.SecureCaller`, and the read loop is not modelled.
- Null references: script objects, `Callable.call`'s result, `thisObj` and `args` are never null here, and a null
  context loader (whose `loadClass` would throw a `NullPointerException` that escapes unwrapped) is not modelled.
  Forwarding does not depend on these values.
- Synthesis failures: the platform's refusal of a definition (duplicate name, class-file verification), resource
  exhaustion and a failing constructor are folded into the one `instantiation` parameter. The generated constructor is
  proved to return normally (`Trampoline.InitReturns`), so such failures can come only from the platform; but
  `instantiation` is not tied to that lemma and may be a failure in any state.
- The JVM's class-name check in `defineClass` is not modelled.
- `NativeArrayIterator.init` and the prototype-only constructor: these register with `ES6Iterator`, which is not part
  of this model.
- Iterator length: `getLengthProperty` is taken to be the length of the element sequence.
- `ArrayIterator.NativeArrayIterator.NextValue`: the index is an unbounded natural number. Java's `int` index would
  wrap after 2^31 - 1 steps, which this model does not capture.
- `NativeContinuation.init`, `call`: `exportAsJSClass` and `Interpreter.restartContinuation` are not part of this model.
- Implementation equality: `equals` is taken to be identity on implementations.
- Null continuations: the `NullPointerException` that `equalImplementations` throws for one cannot arise, because
  Dafny references here are non-null.
- Exception messages: the `IllegalArgumentException` message `String.valueOf(id)` is represented by the id itself.
- `JavaScriptException`: `recordErrorOrigin`, `getSourceName` and `getLineNumber` belong to `RhinoException`, which is
  not part of this model.
- Null source name: a null `sourceName` is not modelled. The source name is always a string.
- Property writes: `put` always writes. Sealed or read-only error objects are not modelled.
- `details`: `ScriptRuntime.toString`, `defaultObjectToString` and `Object.toString` are parameters.
- `SecurityUtilities.java`: its privileged property reads are not part of this model.
- `GeneratedClassLoader.java`: an interface with no behaviour of its own.
- `test/Tests.java`: it tests interpreter `const` semantics.
