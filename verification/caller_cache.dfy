/**
 * The two-level caller cache shared by `PolicySecurityController.callWithDomain`
 * and `SecureCaller.callSecurely`: code source -> (class loader -> soft reference
 * to a synthesized caller). `Resolve` specifies one sequential lookup-or-synthesize
 * step; the lemmas below state what it promises; `Cache` is the mutable static map.
 */
module CallerCache {
  import opened Wrappers
  import opened Jvm
  import opened Trampoline

  /**
   * An instance of a synthesized trampoline class, tagged with what its class was
   * built from: the code source it is attributed to, the parent of the loader
   * that defined it, and its class file.
   */
  datatype Caller = Caller(codeSource: CodeSource, parent: ClassLoader, classFile: ClassFile, instance: nat)
  {
    /**
     * `caller.call(callable, cx, scope, thisObj, args)`: on an instance of a
     * generated trampoline class it is the callable's own call.
     */
    function Call(site: CallSite, invoke: Invoker): (r: Result<Obj, Throwable>)
      ensures classFile == TrampolineClass(classFile.superName) ==>
        r == invoke(site.callable, [site.cx, site.scope, site.thisObj, site.args])
    {
      if classFile == TrampolineClass(classFile.superName) then
        TrampolineForwards(classFile.superName, Obj(instance), site, invoke);
        InvokeCall(classFile, Obj(instance), site, invoke)
      else
        InvokeCall(classFile, Obj(instance), site, invoke)
    }
  }

  /** `c.newInstance()` on a defined class; `instantiation` is what the platform does. */
  function Instantiate(c: LoadedClass, instantiation: Result<nat, Throwable>): (r: Result<Caller, Throwable>)
    ensures r.Ok? <==> instantiation.Ok?
    ensures r.Ok? ==> r.value == Caller(c.codeSource, c.parent, c.classFile, instantiation.value)
    ensures r.Err? ==> r.error == instantiation.error
  {
    match instantiation
    case Ok(n) => Ok(Caller(c.codeSource, c.parent, c.classFile, n))
    case Err(t) => Err(t)
  }

  /** A `SoftReference<SecureCaller>`: its referent becomes None once the collector clears it. */
  datatype SoftReference = SoftReference(referent: Option<Caller>)

  type LoaderMap = map<ClassLoader, SoftReference>
  type Callers = map<CodeSource, LoaderMap>

  /** The reference stored for (cs, cl), or None when either level has no entry. */
  function Entry(callers: Callers, cs: CodeSource, cl: ClassLoader): Option<SoftReference> {
    if cs in callers && cl in callers[cs] then Some(callers[cs][cl]) else None
  }

  /** The live caller cached for (cs, cl): a missing entry and a cleared reference both give None. */
  function Cached(callers: Callers, cs: CodeSource, cl: ClassLoader): Option<Caller> {
    match Entry(callers, cs, cl)
    case None => None
    case Some(ref) => ref.referent
  }

  /** No live caller is cached under a code source other than the one it is attributed to. */
  ghost predicate Attributed(callers: Callers) {
    forall cs, cl :: Cached(callers, cs, cl).Some? ==> Cached(callers, cs, cl).value.codeSource == cs
  }

  /** The state after one step, the caller it yields (or the error it throws), and whether it synthesized. */
  datatype Resolution = Resolution(callers: Callers, caller: Result<Caller, Throwable>, synthesized: bool)

  /**
   * One lookup-or-synthesize step for `cs`, keyed by the loader `key`. `synthesis` is
   * what the privileged define-and-instantiate block yields when it runs on a miss.
   */
  function Resolve(callers: Callers, cs: CodeSource, key: ClassLoader, synthesis: Result<Caller, Throwable>): (r: Resolution)
    ensures cs in r.callers
    ensures r.synthesized <==> Cached(callers, cs, key).None?
    ensures !r.synthesized ==> r.caller == Ok(Cached(callers, cs, key).value)
    ensures r.synthesized && synthesis.Ok? ==> r.caller == synthesis
    ensures r.synthesized && synthesis.Err? ==> r.caller == Err(Undeclare(synthesis.error))
    ensures r.caller.Ok? ==> Cached(r.callers, cs, key) == Some(r.caller.value)
  {
    var loaderMap := if cs in callers then callers[cs] else map[];
    var withMap := callers[cs := loaderMap];
    var live := if key in loaderMap then loaderMap[key].referent else None;
    match live
    case Some(c) => Resolution(withMap, Ok(c), false)
    case None =>
      match synthesis
      case Ok(c) => Resolution(withMap[cs := loaderMap[key := SoftReference(Some(c))]], Ok(c), true)
      case Err(t) => Resolution(withMap, Err(Undeclare(t)), true)
  }

  /**
   * What a call through the cache returns: the callable's own result or exception,
   * unchanged, when a caller was found or built; the synthesis error otherwise.
   */
  function Outcome(r: Resolution, site: CallSite, invoke: Invoker): (o: Result<Obj, Throwable>)
    ensures r.caller.Ok? && r.caller.value.classFile == TrampolineClass(r.caller.value.classFile.superName) ==>
      o == r.caller.value.Call(site, invoke)
    ensures r.caller.Err? ==> o == Err(r.caller.error)
  {
    match r.caller
    case Ok(_) => invoke(site.callable, [site.cx, site.scope, site.thisObj, site.args])
    case Err(t) => Err(t)
  }

  /**
   * After a step the code source has a loader map; a fresh one was inserted only if
   * there was none, an existing one keeps every entry but the key's, and the maps of
   * other code sources are untouched.
   */
  lemma ResolveLoaderMap(callers: Callers, cs: CodeSource, key: ClassLoader, synthesis: Result<Caller, Throwable>)
    ensures var r := Resolve(callers, cs, key, synthesis);
      && r.callers.Keys == callers.Keys + {cs}
      && (forall cs' :: cs' in callers && cs' != cs ==> r.callers[cs'] == callers[cs'])
      && (cs !in callers ==> r.callers[cs].Keys <= {key})
      && (cs in callers ==> r.callers[cs].Keys == callers[cs].Keys + (r.callers[cs].Keys * {key}))
      && (cs in callers ==> forall cl :: cl in callers[cs] && cl != key ==> r.callers[cs][cl] == callers[cs][cl])
  {
  }

  /** A live cached caller is returned as it is: no synthesis, no change to the cache. */
  lemma ResolveHit(callers: Callers, cs: CodeSource, key: ClassLoader, synthesis: Result<Caller, Throwable>)
    requires Cached(callers, cs, key).Some?
    ensures Resolve(callers, cs, key, synthesis) == Resolution(callers, Ok(Cached(callers, cs, key).value), false)
  {
    assert callers[cs := callers[cs]] == callers;
  }

  /**
   * On a miss whose synthesis succeeds, the new caller is returned and stored under
   * (cs, key) alone: every other entry of both levels is as it was.
   */
  lemma ResolveMissStores(callers: Callers, cs: CodeSource, key: ClassLoader, c: Caller)
    requires Cached(callers, cs, key).None?
    ensures var r := Resolve(callers, cs, key, Ok(c));
      && r.caller == Ok(c) && r.synthesized
      && Entry(r.callers, cs, key) == Some(SoftReference(Some(c)))
      && forall cs', cl' :: cs' != cs || cl' != key ==> Entry(r.callers, cs', cl') == Entry(callers, cs', cl')
  {
  }

  /**
   * On a miss whose synthesis fails, the failure is rethrown undeclared with its
   * original cause, and no entry of either level changes.
   */
  lemma ResolveMissFails(callers: Callers, cs: CodeSource, key: ClassLoader, t: Throwable)
    requires Cached(callers, cs, key).None?
    ensures var r := Resolve(callers, cs, key, Err(t));
      && r.caller == Err(Undeclare(t)) && r.synthesized
      && (IsChecked(t) ==> r.caller == Err(UndeclaredThrowable(t)))
      && forall cs', cl' :: Entry(r.callers, cs', cl') == Entry(callers, cs', cl')
  {
  }

  /**
   * A cleared reference is a miss like a missing entry: the step yields the same
   * caller, synthesizes just the same, and leaves the same live callers behind.
   */
  lemma ResolveClearedIsMiss(callers: Callers, cs: CodeSource, key: ClassLoader, synthesis: Result<Caller, Throwable>)
    requires cs in callers && key in callers[cs] && callers[cs][key].referent.None?
    ensures var cleared := Resolve(callers, cs, key, synthesis);
      var missing := Resolve(callers[cs := callers[cs] - {key}], cs, key, synthesis);
      && cleared.caller == missing.caller && cleared.synthesized == missing.synthesized
      && forall cs', cl' :: Cached(cleared.callers, cs', cl') == Cached(missing.callers, cs', cl')
  {
  }

  /**
   * Callers are never shared across code sources: if every cached caller is cached
   * under its own code source and synthesis builds callers for `cs`, the step keeps
   * that so and yields a caller attributed to `cs`.
   */
  lemma ResolveAttributed(callers: Callers, cs: CodeSource, key: ClassLoader, synthesis: Result<Caller, Throwable>)
    requires Attributed(callers)
    requires synthesis.Ok? ==> synthesis.value.codeSource == cs
    ensures var r := Resolve(callers, cs, key, synthesis);
      && Attributed(r.callers)
      && (r.caller.Ok? ==> r.caller.value.codeSource == cs)
  {
    var r := Resolve(callers, cs, key, synthesis);
    forall cs', cl' | Cached(r.callers, cs', cl').Some?
      ensures Cached(r.callers, cs', cl').value.codeSource == cs'
    {
      if cs' != cs || cl' != key || Cached(callers, cs, key).Some? {
        assert Cached(r.callers, cs', cl') == Cached(callers, cs', cl');
      }
    }
    if Cached(callers, cs, key).Some? {
      assert Cached(callers, cs, key).value.codeSource == cs;
    }
  }

  /**
   * At most one synthesis per pair while the reference lives: right after a step
   * that yields a caller, a second step for the same pair returns that very caller
   * without synthesizing, whatever synthesis would do.
   */
  lemma ResolveTwice(callers: Callers, cs: CodeSource, key: ClassLoader, s1: Result<Caller, Throwable>, s2: Result<Caller, Throwable>)
    requires Resolve(callers, cs, key, s1).caller.Ok?
    ensures var r1 := Resolve(callers, cs, key, s1);
      Resolve(r1.callers, cs, key, s2) == Resolution(r1.callers, r1.caller, false)
  {
    var r1 := Resolve(callers, cs, key, s1);
    assert Cached(r1.callers, cs, key) == Some(r1.caller.value);
    ResolveHit(r1.callers, cs, key, s2);
  }

  /** The static `callers` map: a `WeakHashMap<CodeSource, Map<ClassLoader, SoftReference<SecureCaller>>>`. */
  class Cache {
    var callers: Callers

    constructor ()
      ensures callers == map[]
    {
      callers := map[];
    }

    /** `callers.get(codeSource)`, putting a new empty map first when there is none. */
    method GetOrCreateLoaderMap(cs: CodeSource) returns (loaderMap: LoaderMap)
      modifies this
      ensures cs in callers && loaderMap == callers[cs]
      ensures cs in old(callers) ==> callers == old(callers)
      ensures cs !in old(callers) ==> loaderMap == map[] && callers == old(callers)[cs := map[]]
    {
      if cs in callers {
        loaderMap := callers[cs];
      } else {
        loaderMap := map[];
        callers := callers[cs := loaderMap];
      }
    }

    /**
     * `classLoaderMap.put(cl, ref)` on the loader map of `cs`, which is the very map
     * the outer level holds for `cs`.
     */
    method Put(cs: CodeSource, cl: ClassLoader, ref: SoftReference)
      requires cs in callers
      modifies this
      ensures callers == old(callers)[cs := old(callers)[cs][cl := ref]]
    {
      callers := callers[cs := callers[cs][cl := ref]];
    }
  }
}
