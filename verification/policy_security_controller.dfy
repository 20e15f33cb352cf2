/**
 * `PolicySecurityController`: runs a callable on a stack frame attributed to a
 * code source, through a trampoline class defined by a loader bound to that
 * code source, whose instances are cached per (code source, application loader).
 */
module PolicySecurityController {
  import opened Wrappers
  import opened Jvm
  import opened Trampoline
  import opened CallerCache

  /** `SecureCaller.class.getName()` for the nested abstract caller class. */
  const SecureCallerClassName: string := "rhino.PolicySecurityController$SecureCaller"

  /** The static `secureCallerImplBytecode`, the class file `loadBytecode` emits. */
  const SecureCallerImplBytecode: ClassFile := TrampolineClass(SecureCallerClassName)

  /** The nested `Loader`: a secure class loader bound to one code source. */
  datatype Loader = Loader(parent: ClassLoader, codeSource: CodeSource)
  {
    /** `defineClass(name, data)`: defines with the loader's own code source, whatever is asked. */
    function DefineClass(name: string, data: ClassFile): (c: LoadedClass)
      ensures c.codeSource == codeSource && c.parent == parent
      ensures c.name == name && c.classFile == data && !c.linked
    {
      Jvm.DefineClass(parent, name, data, codeSource)
    }

    /** `linkClass(cl)`: links the class and changes nothing else about it. */
    function LinkClass(cl: LoadedClass): (r: LoadedClass)
      ensures r.linked && r == cl.(linked := true)
    {
      ResolveClass(cl)
    }
  }

  /** `createClassLoader(parent, securityDomain)`: a loader bound to the given domain. */
  function CreateClassLoader(parent: ClassLoader, securityDomain: CodeSource): (loader: Loader)
    ensures loader.parent == parent && loader.codeSource == securityDomain
  {
    Loader(parent, securityDomain)
  }

  /** There is no separate dynamic domain: the domain passed in is the dynamic one. */
  function GetDynamicSecurityDomain(securityDomain: CodeSource): (r: CodeSource)
    ensures r == securityDomain
  {
    securityDomain
  }

  /**
   * The privileged block of `callWithDomain`: a new `Loader(classLoader, codeSource)`
   * defines `SecureCallerImpl` from the generated bytes, and the class is instantiated.
   */
  function Synthesize(classLoader: ClassLoader, codeSource: CodeSource, instantiation: Result<nat, Throwable>): (r: Result<Caller, Throwable>)
    ensures r.Ok? <==> instantiation.Ok?
    ensures r.Ok? ==> (r.value.codeSource == codeSource && r.value.parent == classLoader
                       && r.value.classFile == SecureCallerImplBytecode && r.value.instance == instantiation.value)
    ensures r.Err? ==> r.error == instantiation.error
  {
    var loader := Loader(classLoader, codeSource);
    var c := loader.DefineClass(SecureCallerClassName + "Impl", SecureCallerImplBytecode);
    Instantiate(c, instantiation)
  }

  /**
   * The invariant of this controller's cache: every live caller is a generated
   * trampoline attributed to the code source it is cached under, whose loader's
   * parent is the application loader it is cached under.
   */
  ghost predicate Valid(callers: Callers) {
    forall cs, cl :: Cached(callers, cs, cl).Some? ==>
      var c := Cached(callers, cs, cl).value;
      c.codeSource == cs && c.parent == cl && c.classFile == SecureCallerImplBytecode
  }

  /** One `callWithDomain` step keeps the invariant, and the caller it yields is built for that domain and loader. */
  lemma CallWithDomainKeepsValid(callers: Callers, codeSource: CodeSource, classLoader: ClassLoader, instantiation: Result<nat, Throwable>)
    requires Valid(callers)
    ensures var r := Resolve(callers, codeSource, classLoader, Synthesize(classLoader, codeSource, instantiation));
      && Valid(r.callers)
      && (r.caller.Ok? ==> r.caller.value.codeSource == codeSource && r.caller.value.parent == classLoader
                           && r.caller.value.classFile == SecureCallerImplBytecode)
  {
    var r := Resolve(callers, codeSource, classLoader, Synthesize(classLoader, codeSource, instantiation));
    forall cs, cl | Cached(r.callers, cs, cl).Some?
      ensures var c := Cached(r.callers, cs, cl).value;
        c.codeSource == cs && c.parent == cl && c.classFile == SecureCallerImplBytecode
    {
      if cs != codeSource || cl != classLoader || Cached(callers, codeSource, classLoader).Some? {
        assert Cached(r.callers, cs, cl) == Cached(callers, cs, cl);
      }
    }
    if Cached(callers, codeSource, classLoader).Some? {
      var c := Cached(callers, codeSource, classLoader).value;
      assert c.codeSource == codeSource && c.parent == classLoader;
    }
  }

  /**
   * `callWithDomain(securityDomain, cx, callable, scope, thisObj, args)`.
   * `appLoader` is what `cx.getApplicationClassLoader()` returns; `instantiation` is
   * what defining and instantiating the trampoline does on a miss; `invoke` is
   * `Callable.call`. The cache becomes exactly what one `Resolve` step makes of it,
   * keyed by the application loader, and the result is the callable's own.
   */
  method CallWithDomain(
    cache: Cache, securityDomain: CodeSource, appLoader: ClassLoader, site: CallSite,
    instantiation: Result<nat, Throwable>, invoke: Invoker)
    returns (r: Result<Obj, Throwable>)
    requires Valid(cache.callers)
    modifies cache
    ensures Valid(cache.callers)
    ensures var res := Resolve(old(cache.callers), securityDomain, appLoader,
                               Synthesize(appLoader, securityDomain, instantiation));
      && cache.callers == res.callers
      && r == Outcome(res, site, invoke)
  {
    ghost var before := cache.callers;
    ghost var res := Resolve(before, securityDomain, appLoader, Synthesize(appLoader, securityDomain, instantiation));
    CallWithDomainKeepsValid(before, securityDomain, appLoader, instantiation);
    var classLoader := appLoader;
    var codeSource := securityDomain;
    var classLoaderMap := cache.GetOrCreateLoaderMap(codeSource);
    var ref: Option<SoftReference> := if classLoader in classLoaderMap then Some(classLoaderMap[classLoader]) else None;
    var caller: Option<Caller> := if ref.Some? then ref.value.referent else None;
    if caller.None? {
      var synthesized := Synthesize(classLoader, codeSource, instantiation);
      match synthesized {
        case Err(t) =>
          r := Err(Undeclare(t));
          assert cache.callers == res.callers;
          return;
        case Ok(c) =>
          cache.Put(codeSource, classLoader, SoftReference(Some(c)));
          caller := Some(c);
      }
    }
    assert cache.callers == res.callers && res.caller == Ok(caller.value);
    TrampolineForwards(SecureCallerClassName, Obj(caller.value.instance), site, invoke);
    r := caller.value.Call(site, invoke);
  }
}
