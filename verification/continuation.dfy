/**
 * `NativeContinuation`: a captured continuation object. It cannot be constructed
 * or called as a prototype method from scripts; its only prototype entry is
 * `constructor`, looked up by name and registered by id.
 */
module Continuation {
  import opened Wrappers
  import opened ScriptValues

  const FTag: string := "Continuation"
  const IdConstructor: int := 1
  const MaxPrototypeId: int := 1
  const DirectCallUnsupported: string := "Direct call is not supported"

  /** The interpreter state a continuation restarts, compared by identity. */
  datatype Implementation = Implementation(frame: nat)

  /** The errors raised here: a script runtime error, or an `IllegalArgumentException` carrying the id. */
  datatype ScriptError = RuntimeError(message: string) | IllegalArgument(id: int)

  /** An `IdFunctionObject`, as far as `hasTag` and `methodId` see it. */
  datatype IdFunction = IdFunction(tag: string, methodId: int)

  /** What `initPrototypeMethod(tag, id, name, arity)` registers. */
  datatype PrototypeMethod = PrototypeMethod(tag: string, id: int, name: string, arity: nat)

  class NativeContinuation {
    var implementation: Option<Implementation>

    constructor ()
      ensures implementation == None
    {
      implementation := None;
    }

    /** `getImplementation()`: the implementation last given to `initImplementation`, if any. */
    function GetImplementation(): (impl: Option<Implementation>)
      reads this
      ensures impl == implementation
    {
      implementation
    }

    /** `initImplementation(impl)`: `getImplementation` then returns `impl`. */
    method InitImplementation(impl: Option<Implementation>)
      modifies this
      ensures GetImplementation() == impl
    {
      implementation := impl;
    }

    /** The class name, the same for every continuation in every state. */
    static function GetClassName(): (name: string)
      ensures name == "Continuation"
    {
      "Continuation"
    }
  }

  /**
   * `equalImplementations(c1, c2)`: `Objects.equals` on the implementations, so
   * true when both are absent or both are the same implementation.
   */
  function EqualImplementations(c1: NativeContinuation, c2: NativeContinuation): (r: bool)
    reads c1, c2
    ensures r <==> ((c1.implementation.None? && c2.implementation.None?)
                    || (c1.implementation.Some? && c2.implementation.Some?
                        && c1.implementation.value == c2.implementation.value))
  {
    c1.implementation == c2.implementation
  }

  /** `construct`: a continuation can never be constructed directly. */
  function Construct(): (r: Result<Value, ScriptError>)
    ensures r.Err? && r.error == RuntimeError("Direct call is not supported")
  {
    Err(RuntimeError(DirectCallUnsupported))
  }

  /** `isContinuationConstructor(f)`. */
  function IsContinuationConstructor(f: IdFunction): (r: bool)
    ensures r <==> f.tag == FTag && f.methodId == IdConstructor
  {
    f.tag == FTag && f.methodId == IdConstructor
  }

  /**
   * `findPrototypeId(s)` as generated: a length test picks the only candidate
   * name, which must then equal `s`.
   */
  function FindPrototypeId(s: string): (id: int)
    ensures id == IdConstructor <==> s == "constructor"
    ensures id == 0 <==> s != "constructor"
  {
    var candidate: Option<string> := if |s| == 11 then Some("constructor") else None;
    var id := if candidate.Some? then IdConstructor else 0;
    if candidate.Some? && candidate.value != s then 0 else id
  }

  /** `initPrototypeId(id)`: registers `constructor` with arity 0, and refuses every other id. */
  function InitPrototypeId(id: int): (r: Result<PrototypeMethod, ScriptError>)
    ensures r.Ok? <==> id == IdConstructor
    ensures r.Ok? ==> r.value == PrototypeMethod(FTag, id, "constructor", 0)
    ensures r.Err? ==> r.error == IllegalArgument(id)
  {
    if id == IdConstructor then Ok(PrototypeMethod(FTag, id, "constructor", 0))
    else Err(IllegalArgument(id))
  }

  /**
   * Lookup by name and registration by id agree: every name that has an id is
   * registered under that very name, and every id that registers finds itself by
   * its registered name.
   */
  lemma PrototypeIdRoundTrip(s: string, id: int)
    ensures FindPrototypeId(s) != 0 ==> InitPrototypeId(FindPrototypeId(s)) == Ok(PrototypeMethod(FTag, FindPrototypeId(s), s, 0))
    ensures InitPrototypeId(id).Ok? ==> FindPrototypeId(InitPrototypeId(id).value.name) == id
    ensures 1 <= id <= MaxPrototypeId <==> InitPrototypeId(id).Ok?
  {
  }

  /**
   * `execIdCall(f, ...)`: functions of another tag go to the superclass (whose
   * outcome is `superCall`); the constructor refuses a direct call; any other id
   * of this tag is an illegal argument.
   */
  function ExecIdCall(f: IdFunction, superCall: Result<Value, ScriptError>): (r: Result<Value, ScriptError>)
    ensures f.tag != FTag ==> r == superCall
    ensures f.tag == FTag && f.methodId == IdConstructor ==> r == Err(RuntimeError(DirectCallUnsupported))
    ensures f.tag == FTag && f.methodId != IdConstructor ==> r == Err(IllegalArgument(f.methodId))
    ensures f.tag == FTag ==> r.Err?
  {
    if f.tag != FTag then superCall
    else if f.methodId == IdConstructor then Err(RuntimeError(DirectCallUnsupported))
    else Err(IllegalArgument(f.methodId))
  }

  /** Calling the constructor function fails exactly as constructing does. */
  lemma ConstructorCallIsConstruct(f: IdFunction, superCall: Result<Value, ScriptError>)
    requires IsContinuationConstructor(f)
    ensures ExecIdCall(f, superCall) == Construct()
  {
  }
}
