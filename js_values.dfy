/**
 * The JavaScript values that reach the landing page's code from a request body
 * or a form, and JavaScript's notion of truthiness on them.
 */
module JsValues {
  import opened Wrappers

  /** A JavaScript value as JSON can carry it, plus `undefined`. Numbers are integers. */
  datatype JsValue =
    | Undefined
    | Null
    | Bool(b: bool)
    | Num(n: int)
    | Str(s: string)
    | Arr(items: seq<JsValue>)
    | Obj(fields: map<string, JsValue>)

  /** The values `if (v)` treats as true: everything but false, 0, "", null and undefined. */
  function Truthy(v: JsValue): (t: bool)
    ensures !t <==> v == Undefined || v == Null || v == Bool(false) || v == Num(0) || v == Str("")
  {
    match v
    case Undefined => false
    case Null => false
    case Bool(b) => b
    case Num(n) => n != 0
    case Str(s) => s != ""
    case Arr(_) => true
    case Obj(_) => true
  }

  /** `a || b`: the left operand when it is truthy, the right one otherwise. */
  function Or(a: JsValue, b: JsValue): (r: JsValue)
    ensures Truthy(a) ==> r == a
    ensures !Truthy(a) ==> r == b
  {
    if Truthy(a) then a else b
  }

  /** Values on which property access throws a TypeError. */
  predicate Nullish(v: JsValue) {
    v.Undefined? || v.Null?
  }

  /**
   * Reading property `key` of a non-nullish value: an own field of an object,
   * `undefined` for a missing one and for every other kind of value (the field
   * names read by this code are not properties of strings, numbers or arrays).
   */
  function Property(v: JsValue, key: string): (r: JsValue)
    requires !Nullish(v)
    ensures v.Obj? && key in v.fields ==> r == v.fields[key]
    ensures !(v.Obj? && key in v.fields) ==> r == Undefined
  {
    if v.Obj? && key in v.fields then v.fields[key] else Undefined
  }

  /** A string-or-null slot (such as a `localStorage` read) is truthy iff it holds a non-empty string. */
  predicate TruthyString(v: Option<string>) {
    v.Some? && v.value != ""
  }
}
