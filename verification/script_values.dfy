/**
 * The script values the iterator and the exception handle, and the one mutable
 * script object the exception writes to: a `NativeError` with its own properties.
 */
module ScriptValues {

  datatype Value =
    | Null                               // Java null
    | Undefined                          // Undefined.instance
    | Number(n: int)                     // a boxed integer
    | Str(s: string)
    | ArrayObject(elements: seq<Value>)  // an array made by `cx.newArray`
    | ErrorObject(error: NativeError)    // a `NativeError` instance
    | OtherObject(id: nat)               // any other scriptable object

  predicate IsScriptable(v: Value) {
    v.ArrayObject? || v.ErrorObject? || v.OtherObject?
  }

  /** A script error object: its own properties, and the exception that provides its `stack`. */
  class NativeError {
    var props: map<string, Value>
    var stackProvider: object?

    constructor (props: map<string, Value>)
      ensures this.props == props && stackProvider == null
    {
      this.props := props;
      stackProvider := null;
    }

    /** `has(name, this)`: an own property of that name exists. */
    predicate Has(name: string)
      reads this
    {
      name in props
    }

    /** `put(name, this, v)`. */
    method Put(name: string, v: Value)
      modifies this
      ensures props == old(props)[name := v] && stackProvider == old(stackProvider)
    {
      props := props[name := v];
    }

    /** `setStackProvider(p)`. */
    method SetStackProvider(p: object)
      modifies this
      ensures stackProvider == p && props == old(props)
    {
      stackProvider := p;
    }
  }
}
