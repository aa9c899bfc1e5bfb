/** JavaScript values as the logging utilities see them. A value is
    classified once: React elements, functions and DOM nodes are objects in
    JavaScript, but here they are their own cases, so the order in which the
    sanitiser tests for them is the order of its cases. Object entries are
    the own enumerable string-keyed properties, in enumeration order, with
    distinct keys. */
module JsValues {
  datatype JsValue =
    | Undefined
    | Null
    | Bool(b: bool)
    | Num(n: real)
    | NaN
    | Str(s: string)
    | Arr(items: seq<JsValue>)
    | Obj(entries: seq<(string, JsValue)>)
    | Func(name: string)
    | Element
    | DomNode

  /** JavaScript truthiness. Objects of every kind, functions and non-empty strings are truthy. */
  predicate Truthy(v: JsValue)
  {
    match v
    case Undefined => false
    case Null => false
    case Bool(b) => b
    case Num(n) => n != 0.0
    case NaN => false
    case Str(s) => s != ""
    case _ => true
  }
}
