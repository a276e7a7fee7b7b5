/**
 * The generic object tree the XML-to-object converter hands to the event
 * listeners, and the few JavaScript operations the mappers apply to it.
 * The converter itself is not part of this model.
 */
module ObjectTree {
  /**
   * `undefined`, a text value, an element (a record of its children and
   * `_`-prefixed attributes) or a list of repeated elements.
   */
  datatype Value =
    | Undef
    | Str(s: string)
    | Obj(fields: map<string, Value>)
    | List(items: seq<Value>)

  /**
   * Property access `v.key` / `v?.key`. Only a record has named properties;
   * on `undefined` the result is `undefined`.
   */
  function Get(v: Value, key: string): (r: Value)
    ensures r != Undef ==> v.Obj? && key in v.fields && r == v.fields[key]
  {
    if v.Obj? && key in v.fields then v.fields[key] else Undef
  }

  /** JavaScript truthiness: `undefined` and `''` are falsy, records and lists are truthy. */
  predicate Truthy(v: Value) {
    match v
    case Undef => false
    case Str(s) => s != ""
    case Obj(_) => true
    case List(_) => true
  }

  /** `v?.length > 0`: a non-empty list or a non-empty string. */
  predicate HasLength(v: Value) {
    (v.List? && |v.items| > 0) || (v.Str? && |v.s| > 0)
  }

  /** `for (const x of v)`: the elements of a list, or the characters of a string. */
  function Iterate(v: Value): (r: seq<Value>)
    requires v.List? || v.Str?
    ensures v.List? ==> r == v.items
    ensures v.Str? ==> |r| == |v.s|
  {
    if v.List? then v.items else seq(|v.s|, i requires 0 <= i < |v.s| => Str([v.s[i]]))
  }

  /**
   * How the converter represents the occurrences of one child tag: absent
   * when there are none, the element itself when there is one, a list when
   * there are several.
   */
  function ChildValue(occurrences: seq<Value>): Value {
    if |occurrences| == 0 then Undef
    else if |occurrences| == 1 then occurrences[0]
    else List(occurrences)
  }
}
