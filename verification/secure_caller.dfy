/**
 * `SecureCaller.callSecurely`: the same trust-boundary call as the policy
 * controller's, keyed by the thread's context class loader, with the trampoline
 * defined under an effective parent loader that can see the caller class.
 */
module SecureCaller {
  import opened Wrappers
  import opened Jvm
  import opened Trampoline
  import opened CallerCache

  /** `SecureCaller.class.getName()`. */
  const SecureCallerClassName: string := "rhino.SecureCaller"

  /**
   * The static `secureCallerImplBytecode`, read from the resource
   * `SecureCallerImpl.clazz`: taken to be the trampoline for `rhino.SecureCaller`.
   */
  const SecureCallerImplBytecode: ClassFile := TrampolineClass(SecureCallerClassName)

  /** A class object, compared by identity. */
  datatype ClassId = ClassId(id: nat)

  /** The class of the privileged action (`getClass()` inside it) and its defining loader. */
  datatype ActionClass = ActionClass(id: ClassId, loader: ClassLoader)

  /**
   * The parent for the new loader: the context loader when it resolves the action's
   * class name to that very class (`found`), and the action class's own loader otherwise.
   */
  function EffectiveParent(contextLoader: ClassLoader, found: ClassId, action: ActionClass): (p: ClassLoader)
    ensures p == contextLoader <== found == action.id
    ensures found != action.id ==> p == action.loader
    ensures p == contextLoader || p == action.loader
  {
    if found != action.id then action.loader else contextLoader
  }

  /** The nested `SecureClassLoaderImpl`. */
  datatype SecureClassLoaderImpl = SecureClassLoaderImpl(parent: ClassLoader)
  {
    /** `defineAndLinkClass(name, bytes, cs)`: defines the class under `cs`, then links it, then returns it. */
    function DefineAndLinkClass(name: string, bytes: ClassFile, cs: CodeSource): (c: LoadedClass)
      ensures c.linked
      ensures c.codeSource == cs && c.parent == parent && c.name == name && c.classFile == bytes
    {
      var cl := Jvm.DefineClass(parent, name, bytes, cs);
      ResolveClass(cl)
    }
  }

  /**
   * The privileged action of `callSecurely`. `lookup` is what
   * `classLoader.loadClass(thisClass.getName())` does; it may throw.
   */
  function Synthesize(contextLoader: ClassLoader, lookup: Result<ClassId, Throwable>, action: ActionClass,
                      codeSource: CodeSource, instantiation: Result<nat, Throwable>): (r: Result<Caller, Throwable>)
    ensures r.Ok? <==> lookup.Ok? && instantiation.Ok?
    ensures lookup.Err? ==> r == Err(lookup.error)
    ensures lookup.Ok? && instantiation.Err? ==> r == Err(instantiation.error)
    ensures r.Ok? ==> r.value == Caller(codeSource, EffectiveParent(contextLoader, lookup.value, action),
                                         SecureCallerImplBytecode, instantiation.value)
  {
    match lookup
    case Err(t) => Err(t)
    case Ok(found) =>
      var effectiveClassLoader := EffectiveParent(contextLoader, found, action);
      var secCl := SecureClassLoaderImpl(effectiveClassLoader);
      var c := secCl.DefineAndLinkClass(SecureCallerClassName + "Impl", SecureCallerImplBytecode, codeSource);
      Instantiate(c, instantiation)
  }

  /**
   * The invariant of this cache: every live caller is the trampoline, attributed to
   * the code source it is cached under, defined under either the context loader it
   * is cached under or the action class's loader.
   */
  ghost predicate Valid(callers: Callers, action: ActionClass) {
    forall cs, cl :: Cached(callers, cs, cl).Some? ==>
      var c := Cached(callers, cs, cl).value;
      c.codeSource == cs && (c.parent == cl || c.parent == action.loader) && c.classFile == SecureCallerImplBytecode
  }

  /** One `callSecurely` step keeps the invariant. */
  lemma CallSecurelyKeepsValid(callers: Callers, codeSource: CodeSource, contextLoader: ClassLoader,
                               lookup: Result<ClassId, Throwable>, action: ActionClass, instantiation: Result<nat, Throwable>)
    requires Valid(callers, action)
    ensures var r := Resolve(callers, codeSource, contextLoader, Synthesize(contextLoader, lookup, action, codeSource, instantiation));
      && Valid(r.callers, action)
      && (r.caller.Ok? ==> r.caller.value.codeSource == codeSource && r.caller.value.classFile == SecureCallerImplBytecode)
  {
    var r := Resolve(callers, codeSource, contextLoader, Synthesize(contextLoader, lookup, action, codeSource, instantiation));
    forall cs, cl | Cached(r.callers, cs, cl).Some?
      ensures var c := Cached(r.callers, cs, cl).value;
        c.codeSource == cs && (c.parent == cl || c.parent == action.loader) && c.classFile == SecureCallerImplBytecode
    {
      if cs != codeSource || cl != contextLoader || Cached(callers, codeSource, contextLoader).Some? {
        assert Cached(r.callers, cs, cl) == Cached(callers, cs, cl);
      }
    }
    if Cached(callers, codeSource, contextLoader).Some? {
      var c := Cached(callers, codeSource, contextLoader).value;
      assert c.codeSource == codeSource;
    }
  }

  /**
   * The cache key is the thread's context loader even when the trampoline was
   * defined under the action class's loader: a successful miss stores the new
   * caller under (codeSource, contextLoader) and touches no other entry, not even
   * the one of the loader actually used as parent.
   */
  lemma KeyedByContextLoader(callers: Callers, codeSource: CodeSource, contextLoader: ClassLoader,
                             found: ClassId, action: ActionClass, instance: nat)
    requires Cached(callers, codeSource, contextLoader).None?
    ensures var c := Caller(codeSource, EffectiveParent(contextLoader, found, action), SecureCallerImplBytecode, instance);
      var r := Resolve(callers, codeSource, contextLoader, Synthesize(contextLoader, Ok(found), action, codeSource, Ok(instance)));
      && r.caller == Ok(c)
      && Entry(r.callers, codeSource, contextLoader) == Some(SoftReference(Some(c)))
      && (found != action.id ==> c.parent == action.loader)
      && forall cs, cl :: cs != codeSource || cl != contextLoader ==> Entry(r.callers, cs, cl) == Entry(callers, cs, cl)
  {
    var c := Caller(codeSource, EffectiveParent(contextLoader, found, action), SecureCallerImplBytecode, instance);
    ResolveMissStores(callers, codeSource, contextLoader, c);
  }

  /**
   * `callSecurely(codeSource, callable, cx, scope, thisObj, args)`. `contextLoader`
   * is the current thread's context class loader; `lookup`, `action` and
   * `instantiation` describe what the platform does on a miss; `invoke` is
   * `Callable.call`. The cache becomes what one `Resolve` step keyed by the context
   * loader makes of it, and the result is the callable's own.
   */
  method CallSecurely(
    cache: Cache, codeSource: CodeSource, contextLoader: ClassLoader, site: CallSite,
    lookup: Result<ClassId, Throwable>, action: ActionClass, instantiation: Result<nat, Throwable>, invoke: Invoker)
    returns (r: Result<Obj, Throwable>)
    requires Valid(cache.callers, action)
    modifies cache
    ensures Valid(cache.callers, action)
    ensures var res := Resolve(old(cache.callers), codeSource, contextLoader,
                               Synthesize(contextLoader, lookup, action, codeSource, instantiation));
      && cache.callers == res.callers
      && r == Outcome(res, site, invoke)
  {
    ghost var before := cache.callers;
    ghost var res := Resolve(before, codeSource, contextLoader, Synthesize(contextLoader, lookup, action, codeSource, instantiation));
    CallSecurelyKeepsValid(before, codeSource, contextLoader, lookup, action, instantiation);
    var classLoader := contextLoader;
    var classLoaderMap := cache.GetOrCreateLoaderMap(codeSource);
    var ref: Option<SoftReference> := if classLoader in classLoaderMap then Some(classLoaderMap[classLoader]) else None;
    var caller: Option<Caller> := if ref.Some? then ref.value.referent else None;
    if caller.None? {
      var synthesized := Synthesize(classLoader, lookup, action, codeSource, instantiation);
      match synthesized {
        case Err(t) =>
          r := Err(Undeclare(t));
          assert cache.callers == res.callers;
          return;
        case Ok(c) =>
          cache.Put(codeSource, classLoader, SoftReference(Some(c)));
          caller := Some(c);
      }
    }
    assert cache.callers == res.callers && res.caller == Ok(caller.value);
    TrampolineForwards(SecureCallerClassName, Obj(caller.value.instance), site, invoke);
    r := caller.value.Call(site, invoke);
  }
}
