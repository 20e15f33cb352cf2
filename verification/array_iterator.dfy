/**
 * `NativeArrayIterator`: an iterator over an array-like object that yields its
 * keys, its values or [key, value] entries, advancing one index per step.
 */
module ArrayIterator {
  import opened Wrappers
  import opened ScriptValues

  datatype ArrayIteratorType = Entries | Keys | Values

  const IteratorTag: string := "ArrayIterator"

  /**
   * The array-like object being iterated, which scripts may change between steps.
   * An element is None where a lookup finds `NOT_FOUND` (a hole).
   */
  class ArrayLike {
    var elements: seq<Option<Value>>

    constructor (elements: seq<Option<Value>>)
      ensures this.elements == elements
    {
      this.elements := elements;
    }

    /** `NativeArray.getLengthProperty(cx, arrayLike, false)`. */
    function Length(): nat
      reads this
    {
      |elements|
    }

    /** `arrayLike.get(index, arrayLike)`: `NOT_FOUND` at a hole and past the end. */
    function Get(index: nat): Option<Value>
      reads this
    {
      if index < |elements| then elements[index] else None
    }
  }

  /** The value a step at `index` yields over `elements`, for each iterator type. */
  function StepValue(kind: ArrayIteratorType, index: nat, elements: seq<Option<Value>>): (v: Value)
    ensures kind == Keys ==> v == Number(index)
    ensures kind != Keys ==>
      var element := if index < |elements| && elements[index].Some? then elements[index].value else Undefined;
      && (kind == Values ==> v == element)
      && (kind == Entries ==> v == ArrayObject([Number(index), element]))
  {
    if kind == Keys then Number(index)
    else
      var found := if index < |elements| then elements[index] else None;
      var value := if found.None? then Undefined else found.value;
      if kind == Entries then ArrayObject([Number(index), value]) else value
  }

  /** An entry is the pair of what a keys step and a values step yield at the same index. */
  lemma EntryPairsKeyAndValue(index: nat, elements: seq<Option<Value>>)
    ensures StepValue(Entries, index, elements)
         == ArrayObject([StepValue(Keys, index, elements), StepValue(Values, index, elements)])
  {
  }

  class NativeArrayIterator {
    const arrayLike: ArrayLike
    const kind: ArrayIteratorType
    var index: nat

    constructor (arrayLike: ArrayLike, kind: ArrayIteratorType)
      ensures this.arrayLike == arrayLike && this.kind == kind && index == 0
    {
      this.arrayLike := arrayLike;
      this.kind := kind;
      index := 0;
    }

    /** The class name, the same for every iterator in every state. */
    static function GetClassName(): (name: string)
      ensures name == "Array Iterator"
    {
      "Array Iterator"
    }

    /** The iterator tag, the same for every iterator in every state. */
    static function GetTag(): (tag: string)
      ensures tag == IteratorTag && tag == "ArrayIterator"
    {
      IteratorTag
    }

    /** Done once the index has reached the array-like's current length. */
    predicate IsDone()
      reads this, arrayLike
      ensures IsDone() <==> index >= |arrayLike.elements|
      ensures IsDone() ==> arrayLike.Get(index).None?
    {
      index >= arrayLike.Length()
    }

    /**
     * `nextValue`: yields the step value at the current index and advances the
     * index by one; the array-like is only read.
     */
    method NextValue() returns (v: Value)
      modifies this
      ensures index == old(index) + 1
      ensures v == StepValue(kind, old(index), arrayLike.elements)
      ensures arrayLike.elements == old(arrayLike.elements)
    {
      if kind == Keys {
        v := Number(index);
        index := index + 1;
        return;
      }
      var value := arrayLike.Get(index);
      v := if value.None? then Undefined else value.value;
      if kind == Entries {
        v := ArrayObject([Number(index), v]);
      }
      index := index + 1;
    }
  }
}
