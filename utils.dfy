/** src/utils.ts. */
module Utils {
  import opened ObjectTree

  /**
   * `convertToArray`: `undefined` becomes the empty list, a list is returned
   * as it is, and any other value becomes the list holding just that value.
   */
  function ConvertToArray(v: Value): (r: seq<Value>)
    ensures v == Undef ==> r == []
    ensures v.List? ==> r == v.items
    ensures !v.Undef? && !v.List? ==> r == [v]
  {
    if v == Undef then [] else if !v.List? then [v] else v.items
  }

  /** Applying `convertToArray` to its own result changes nothing. */
  lemma ConvertToArrayIdempotent(v: Value)
    ensures ConvertToArray(List(ConvertToArray(v))) == ConvertToArray(v)
  {
  }

  /**
   * `convertToArray` undoes the converter's folding of repeated child
   * elements: whether a child tag occurs never, once or several times, the
   * occurrences come back in document order.
   */
  lemma ConvertToArrayRecoversOccurrences(occurrences: seq<Value>)
    requires forall i :: 0 <= i < |occurrences| ==> occurrences[i].Obj? || occurrences[i].Str?
    ensures ConvertToArray(ChildValue(occurrences)) == occurrences
  {
    if |occurrences| == 1 {
      assert occurrences == [occurrences[0]];
    }
  }
}
