/**
 * The synthesized trampoline class: the class file that `loadBytecode` emits
 * (a constructor that only calls its superclass constructor, and a final `call`
 * method that loads its five arguments and invokes `Callable.call` with them),
 * and a small interpreter for the handful of JVM instructions it uses, so that
 * the forwarding shape can be stated and proved.
 */
module Trampoline {
  import opened Wrappers
  import opened Jvm

  /** The arguments of `SecureCaller.call`, in parameter order. */
  datatype CallSite = CallSite(callable: Obj, cx: Obj, scope: Obj, thisObj: Obj, args: Obj)

  /** What `Callable.call` does, as a function of the receiver and its four arguments. */
  type Invoker = (Obj, seq<Obj>) -> Result<Obj, Throwable>

  /** How a method body ends. */
  datatype Completion =
    | Returned(value: Obj)
    | ReturnedVoid
    | Threw(thrown: Throwable)
    | Fault   // stack underflow, a missing local or falling off the end: a class the verifier refuses

  const AccPublic: int := 0x0001
  const AccFinal: int := 0x0010

  const CallableCallSignature: string :=
    "Lrhino/Context;Lrhino/Scriptable;Lrhino/Scriptable;[Ljava/lang/Object;)Ljava/lang/Object;"
  const CallableCallArity: nat := 4

  /** Loads of the local slots lo, lo + 1, ..., hi - 1, in that order. */
  function LoadSlots(lo: nat, hi: nat): (r: seq<Instr>)
    ensures |r| == if lo <= hi then hi - lo else 0
  {
    if lo < hi then seq(hi - lo, k requires 0 <= k < hi - lo => ALoad(lo + k)) else []
  }

  function InitCode(superName: string): seq<Instr> {
    [ALoad(0), InvokeSpecial(superName, "<init>", "()V"), Return]
  }

  function CallCode(): seq<Instr> {
    LoadSlots(1, 6)
      + [InvokeInterface("rhino/Callable", "call", "(" + CallableCallSignature, CallableCallArity), AReturn]
  }

  /** The class `loadBytecode` produces for the abstract caller class `superName`. */
  function TrampolineClass(superName: string): ClassFile {
    ClassFile(superName + "Impl", superName, "<generated>", [
      MethodInfo("<init>", "()V", AccPublic, 1, InitCode(superName)),
      MethodInfo("call", "(Lrhino/Callable;" + CallableCallSignature, AccPublic + AccFinal, 6, CallCode())
    ])
  }

  /**
   * Runs straight-line code on a frame with the given locals and operand stack.
   * `invoke` stands for the interface method the code calls.
   */
  function Exec(code: seq<Instr>, locals: seq<Obj>, stack: seq<Obj>, invoke: Invoker): Completion
    decreases |code|
  {
    if code == [] then Fault
    else match code[0]
      case ALoad(i) =>
        if i < |locals| then Exec(code[1..], locals, stack + [locals[i]], invoke) else Fault
      case InvokeSpecial(_, _, _) =>
        if 1 <= |stack| then Exec(code[1..], locals, stack[..|stack| - 1], invoke) else Fault
      case InvokeInterface(_, _, _, n) =>
        if n < |stack| then
          var base := |stack| - n - 1;
          match invoke(stack[base], stack[base + 1..])
          case Ok(v) => Exec(code[1..], locals, stack[..base] + [v], invoke)
          case Err(t) => Threw(t)
        else Fault
      case Return => ReturnedVoid
      case AReturn => if 1 <= |stack| then Returned(stack[|stack| - 1]) else Fault
  }

  /** Loading slots lo..hi-1 pushes exactly those locals, in order. */
  lemma {:induction false} ExecLoadSlots(lo: nat, hi: nat, rest: seq<Instr>, locals: seq<Obj>, stack: seq<Obj>, invoke: Invoker)
    requires lo <= hi <= |locals|
    ensures Exec(LoadSlots(lo, hi) + rest, locals, stack, invoke) == Exec(rest, locals, stack + locals[lo..hi], invoke)
    decreases hi - lo
  {
    if lo < hi {
      var code := LoadSlots(lo, hi) + rest;
      assert code[0] == ALoad(lo);
      assert code[1..] == LoadSlots(lo + 1, hi) + rest;
      ExecLoadSlots(lo + 1, hi, rest, locals, stack + [locals[lo]], invoke);
      assert (stack + [locals[lo]]) + locals[lo + 1..hi] == stack + locals[lo..hi];
    } else {
      assert LoadSlots(lo, hi) + rest == rest;
      assert stack + locals[lo..hi] == stack;
    }
  }

  /**
   * The generated `call` forwards verbatim: with `this` and the five arguments in
   * locals 0..5, it invokes the callable (local 1) on locals 2..5 and returns what
   * that call returns, or lets what it throws escape unchanged.
   */
  lemma CallForwards(locals: seq<Obj>, invoke: Invoker)
    requires |locals| == 6
    ensures Exec(CallCode(), locals, [], invoke)
         == match invoke(locals[1], locals[2..6])
            case Ok(v) => Returned(v)
            case Err(t) => Threw(t)
  {
    var tail := [InvokeInterface("rhino/Callable", "call", "(" + CallableCallSignature, CallableCallArity), AReturn];
    ExecLoadSlots(1, 6, tail, locals, [], invoke);
    var stack := [] + locals[1..6];
    assert stack[0] == locals[1] && stack[1..] == locals[2..6];
    assert tail[1..] == [AReturn];
  }

  /** The generated constructor returns normally whenever `this` is in local 0. */
  lemma InitReturns(superName: string, locals: seq<Obj>, invoke: Invoker)
    requires 1 <= |locals|
    ensures Exec(InitCode(superName), locals, [], invoke) == ReturnedVoid
  {
    var code := InitCode(superName);
    var afterLoad := [InvokeSpecial(superName, "<init>", "()V"), Return];
    assert code[0] == ALoad(0) && code[1..] == afterLoad;
    assert afterLoad[0].InvokeSpecial? && afterLoad[1..] == [Return];
    assert Exec([Return], locals, [], invoke) == ReturnedVoid;
    assert [locals[0]][..0] == [];
    assert Exec(afterLoad, locals, [locals[0]], invoke) == ReturnedVoid;
  }

  /**
   * `loadBytecode`: emits the constructor, then the `call` method, whose five
   * `aload` instructions are emitted by a loop over the slots 1 to 5.
   */
  method LoadBytecode(superName: string) returns (cf: ClassFile)
    ensures cf == TrampolineClass(superName)
  {
    var init := MethodInfo("<init>", "()V", AccPublic, 1, [ALoad(0), InvokeSpecial(superName, "<init>", "()V"), Return]);
    var code: seq<Instr> := [];
    for i := 1 to 6
      invariant |code| == i - 1
      invariant forall k :: 0 <= k < |code| ==> code[k] == ALoad(k + 1)
    {
      code := code + [ALoad(i)];
    }
    assert code == LoadSlots(1, 6);
    ghost var loads := code;
    code := code + [InvokeInterface("rhino/Callable", "call", "(" + CallableCallSignature, CallableCallArity)];
    code := code + [AReturn];
    assert code == loads + [InvokeInterface("rhino/Callable", "call", "(" + CallableCallSignature, CallableCallArity), AReturn];
    assert init.code == InitCode(superName);
    var call := MethodInfo("call", "(Lrhino/Callable;" + CallableCallSignature, AccPublic + AccFinal, 6, code);
    cf := ClassFile(superName + "Impl", superName, "<generated>", [init, call]);
  }

  /** The first method of a class file with the given name, if it has one. */
  function FindMethod(cf: ClassFile, name: string): (m: Option<MethodInfo>)
    ensures m.Some? ==> m.value in cf.methods && m.value.name == name
    ensures m.Some? ==> exists i :: 0 <= i < |cf.methods| && cf.methods[i] == m.value
                                  && forall j :: 0 <= j < i ==> cf.methods[j].name != name
    ensures m.None? ==> forall i :: 0 <= i < |cf.methods| ==> cf.methods[i].name != name
    decreases |cf.methods|
  {
    if cf.methods == [] then None
    else if cf.methods[0].name == name then Some(cf.methods[0])
    else FindMethod(cf.(methods := cf.methods[1..]), name)
  }

  /**
   * Calls `call` on an instance of a trampoline class: `self` is the instance.
   * A class without a well-formed `call` would be refused by the platform.
   */
  function InvokeCall(cf: ClassFile, self: Obj, site: CallSite, invoke: Invoker): Result<Obj, Throwable> {
    match FindMethod(cf, "call")
    case None => Err(VerifyError)
    case Some(m) =>
      match Exec(m.code, [self, site.callable, site.cx, site.scope, site.thisObj, site.args], [], invoke)
      case Returned(v) => Ok(v)
      case Threw(t) => Err(t)
      case _ => Err(VerifyError)
  }

  /** Through the generated class, `call` is exactly `callable.call(cx, scope, thisObj, args)`. */
  lemma TrampolineForwards(superName: string, self: Obj, site: CallSite, invoke: Invoker)
    ensures InvokeCall(TrampolineClass(superName), self, site, invoke)
         == invoke(site.callable, [site.cx, site.scope, site.thisObj, site.args])
  {
    var cf := TrampolineClass(superName);
    assert cf.methods[0].name != "call";
    assert FindMethod(cf, "call") == Some(cf.methods[1]);
    var locals := [self, site.callable, site.cx, site.scope, site.thisObj, site.args];
    CallForwards(locals, invoke);
    assert locals[2..6] == [site.cx, site.scope, site.thisObj, site.args];
  }
}
