/** The JavaScript values the front end handles, their truthiness and their String() form. */
module JsValues {
  import opened Strings

  /** The values met: numbers are integers here (no NaN, no fractions). */
  datatype JsValue =
    | Undefined
    | Null
    | Bool(b: bool)
    | Number(n: int)
    | Str(s: string)
    | Arr(items: seq<string>)  // an array of strings; any array is truthy

  /** JavaScript truthiness. */
  predicate Truthy(v: JsValue) {
    match v
    case Undefined => false
    case Null => false
    case Bool(b) => b
    case Number(n) => n != 0
    case Str(s) => s != ""
    case Arr(_) => true
  }

  /** String(v): how a value becomes a query value or an error message. */
  function ToJsString(v: JsValue): string {
    match v
    case Undefined => "undefined"
    case Null => "null"
    case Bool(b) => if b then "true" else "false"
    case Number(n) => IntToString(n)
    case Str(s) => s
    case Arr(items) => Join(items, ",")
  }

  /** A truthy value other than an array prints as non-empty text; `[]` and `[""]` are truthy yet print as "". */
  lemma TruthyScalarsHaveText(v: JsValue)
    requires Truthy(v) && !v.Arr?
    ensures ToJsString(v) != ""
    ensures Truthy(Arr([])) && ToJsString(Arr([])) == "" && ToJsString(Arr([""])) == ""
  {
  }
}
