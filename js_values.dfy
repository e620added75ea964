/**
 * The few JavaScript values the modelled code treats as text: an absent
 * field, `null`, or a string. Template literals and `+ ''` turn each into
 * text; a conditional tests its truthiness.
 */
module JsValues {

  datatype JsValue = Undefined | Null | Str(s: string)

  /** `${v}` or `v + ''`: the text JavaScript makes of the value. */
  function ToText(v: JsValue): (t: string)
    ensures v.Str? ==> t == v.s
    ensures v == Undefined ==> t == "undefined"
    ensures v == Null ==> t == "null"
  {
    match v
    case Undefined => "undefined"
    case Null => "null"
    case Str(s) => s
  }

  /** `v ? … : …`: only a non-empty string is truthy. */
  predicate Truthy(v: JsValue)
  {
    v.Str? && v.s != ""
  }
}
