/**
 * `JavaScriptException`: the Java exception that carries a value thrown by a
 * script. When the value is a script error object and the location feature is on,
 * the error's `fileName` and `lineNumber` are filled in where they are absent.
 */
module JsException {
  import opened Wrappers
  import opened ScriptValues

  /**
   * The properties after the fill-in: `fileName` and `lineNumber` are added when
   * absent and never overwritten when present; every other property is kept.
   */
  function FillLocation(props: map<string, Value>, sourceName: string, lineNumber: int): (r: map<string, Value>)
    ensures r.Keys == props.Keys + {"fileName", "lineNumber"}
    ensures r["fileName"] == if "fileName" in props then props["fileName"] else Str(sourceName)
    ensures r["lineNumber"] == if "lineNumber" in props then props["lineNumber"] else Number(lineNumber)
    ensures forall k :: k in props && k != "fileName" && k != "lineNumber" ==> r[k] == props[k]
  {
    var withFile := if "fileName" in props then props else props["fileName" := Str(sourceName)];
    if "lineNumber" in withFile then withFile else withFile["lineNumber" := Number(lineNumber)]
  }

  /**
   * Throwing the same error again keeps the location recorded first: a second
   * fill-in, from any source and line, changes nothing.
   */
  lemma FillLocationIdempotent(props: map<string, Value>, s1: string, l1: int, s2: string, l2: int)
    ensures FillLocation(FillLocation(props, s1, l1), s2, l2) == FillLocation(props, s1, l1)
  {
    var once := FillLocation(props, s1, l1);
    var twice := FillLocation(once, s2, l2);
    assert twice.Keys == once.Keys;
    forall k | k in once ensures twice[k] == once[k] {
    }
  }

  /** The script error objects a value refers to: the ones a constructor may write to. */
  function ErrorFootprint(v: Value): set<NativeError> {
    if v.ErrorObject? then {v.error} else {}
  }

  /**
   * The conditional part of the constructor: fill in the location where absent,
   * then make `provider` the error's stack provider.
   */
  method FillInLocation(error: NativeError, sourceName: string, lineNumber: int, provider: object)
    modifies error
    ensures error.props == FillLocation(old(error.props), sourceName, lineNumber)
    ensures error.stackProvider == provider
  {
    if !error.Has("fileName") {
      error.Put("fileName", Str(sourceName));
    }
    if !error.Has("lineNumber") {
      error.Put("lineNumber", Number(lineNumber));
    }
    error.SetStackProvider(provider);
  }

  class JavaScriptException {
    const value: Value

    /**
     * `JavaScriptException(value, sourceName, lineNumber)`; `locationInfo` is whether
     * the current context has `FEATURE_LOCATION_INFORMATION_IN_ERROR`.
     */
    constructor (value: Value, sourceName: string, lineNumber: int, locationInfo: bool)
      modifies ErrorFootprint(value)
      ensures GetValue() == value
      ensures value.ErrorObject? && locationInfo ==>
        value.error.props == FillLocation(old(value.error.props), sourceName, lineNumber)
        && value.error.stackProvider == this
      ensures value.ErrorObject? && !locationInfo ==>
        value.error.props == old(value.error.props) && value.error.stackProvider == old(value.error.stackProvider)
    {
      this.value := value;
      new;
      if value.ErrorObject? && locationInfo {
        FillInLocation(value.error, sourceName, lineNumber, this);
      }
    }

    /** The deprecated `JavaScriptException(value)`: the same as `(value, "", 0)`. */
    constructor FromValue(value: Value, locationInfo: bool)
      modifies ErrorFootprint(value)
      ensures GetValue() == value
      ensures value.ErrorObject? && locationInfo ==>
        value.error.props == FillLocation(old(value.error.props), "", 0)
        && value.error.stackProvider == this
      ensures value.ErrorObject? && !locationInfo ==>
        value.error.props == old(value.error.props) && value.error.stackProvider == old(value.error.stackProvider)
    {
      this.value := value;
      new;
      if value.ErrorObject? && locationInfo {
        FillInLocation(value.error, "", 0, this);
      }
    }

    /** `getValue()`: the value thrown. */
    function GetValue(): (v: Value)
      ensures v == value
    {
      value
    }

    /**
     * `details()`. `javaToString` is the value's `toString()`, `scriptToString` is
     * `ScriptRuntime.toString` (None when it throws), and `defaultObjectToString`
     * is `ScriptRuntime.defaultObjectToString`.
     */
    function Details(javaToString: Value -> string, scriptToString: Value -> Option<string>,
                     defaultObjectToString: Value -> string): (r: string)
      ensures value.Null? ==> r == "null"
      ensures value.ErrorObject? ==> r == javaToString(value)
      ensures !value.Null? && !value.ErrorObject? && scriptToString(value).Some? ==> r == scriptToString(value).value
      ensures !value.Null? && !value.ErrorObject? && scriptToString(value).None? ==>
        r == if IsScriptable(value) then defaultObjectToString(value) else javaToString(value)
    {
      if value.Null? then "null"
      else if value.ErrorObject? then javaToString(value)
      else match scriptToString(value)
        case Some(s) => s
        case None => if IsScriptable(value) then defaultObjectToString(value) else javaToString(value)
    }
  }
}
