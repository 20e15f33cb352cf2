/**
 * The few pieces of the Java platform that the trust boundary talks to:
 * code sources, class loaders, object references, throwables, and the
 * protected `defineClass` / `resolveClass` of `java.security.SecureClassLoader`.
 * The platform itself is not part of this model; these are its interfaces.
 */
module Jvm {
  import opened Wrappers

  /** A `java.security.CodeSource`: an opaque, comparable identity. */
  datatype CodeSource = CodeSource(location: nat)

  /** A `java.lang.ClassLoader`: an opaque, comparable identity. */
  datatype ClassLoader = ClassLoader(id: nat)

  /** A non-null object reference (a callable, a context, a scope, an argument array, a result). */
  datatype Obj = Obj(id: nat)

  /** The throwables the trust boundary distinguishes. */
  datatype Throwable =
    | CheckedException(code: nat)             // an Exception that is not a RuntimeException
    | UncheckedException(code: nat)           // a RuntimeException or an Error
    | VerifyError                             // the platform refused a class file
    | UndeclaredThrowable(cause: Throwable)   // java.lang.reflect.UndeclaredThrowableException

  predicate IsChecked(t: Throwable) {
    t.CheckedException?
  }

  /**
   * What a `try { AccessController.doPrivileged(action) } catch (PrivilegedActionException ex)
   * { throw new UndeclaredThrowableException(ex.getCause()); }` does to a throwable that
   * escapes the action: `doPrivileged` wraps checked exceptions only, and the handler
   * rewraps those with their original cause; everything else propagates as it is.
   */
  function Undeclare(t: Throwable): (r: Throwable)
    ensures IsChecked(t) ==> r == UndeclaredThrowable(t)
    ensures !IsChecked(t) ==> r == t
    ensures !IsChecked(r)
  {
    if IsChecked(t) then UndeclaredThrowable(t) else t
  }

  /** The JVM instructions a trampoline class uses. */
  datatype Instr =
    | ALoad(slot: nat)                                            // push local `slot`
    | InvokeSpecial(owner: string, name: string, descriptor: string)  // a no-argument super constructor
    | InvokeInterface(owner: string, name: string, descriptor: string, argCount: nat)
    | Return                                                      // return from a void method
    | AReturn                                                     // return the reference on top of the stack

  datatype MethodInfo = MethodInfo(
    name: string, descriptor: string, flags: int, maxLocals: nat, code: seq<Instr>)

  datatype ClassFile = ClassFile(
    name: string, superName: string, sourceFile: string, methods: seq<MethodInfo>)

  /** A class defined by a secure class loader. */
  datatype LoadedClass = LoadedClass(
    name: string,
    classFile: ClassFile,
    codeSource: CodeSource,   // the protection domain the class is attributed to
    parent: ClassLoader,      // the parent of the loader that defined it
    linked: bool)

  /** `SecureClassLoader.defineClass(name, bytes, 0, bytes.length, cs)` on a loader with the given parent. */
  function DefineClass(parent: ClassLoader, name: string, bytes: ClassFile, cs: CodeSource): (c: LoadedClass)
    ensures c.codeSource == cs && c.parent == parent && c.name == name && c.classFile == bytes
    ensures !c.linked
  {
    LoadedClass(name, bytes, cs, parent, false)
  }

  /** `ClassLoader.resolveClass(c)`: links the class and changes nothing else about it. */
  function ResolveClass(c: LoadedClass): (r: LoadedClass)
    ensures r.linked
    ensures r.name == c.name && r.classFile == c.classFile && r.codeSource == c.codeSource && r.parent == c.parent
  {
    c.(linked := true)
  }
}
