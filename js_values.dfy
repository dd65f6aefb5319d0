/**
 * The dynamically typed values that the browser-side code keeps in Backbone
 * model attributes and view options, with the JavaScript rules the core relies
 * on: truthiness (`x || default`), conversion to a string (`'a' + x`) and
 * Backbone.Validation's notion of a field that "has a value".
 */
module JsValues {
  import opened Strings

  /**
   * A JavaScript value. Numbers are modelled as integers; arrays hold the
   * integer ids the coupon form collects.
   */
  datatype Value =
    | Undefined
    | Null
    | Bool(b: bool)
    | Num(n: int)
    | Str(s: string)
    | Arr(items: seq<int>)

  /** JavaScript truthiness: what `x || d` and `if (x)` test. */
  predicate Truthy(v: Value)
  {
    match v
    case Undefined => false
    case Null => false
    case Bool(b) => b
    case Num(n) => n != 0
    case Str(s) => s != ""
    case Arr(_) => true
  }

  /** `x || d`: the value itself when it is truthy, the default otherwise. */
  function Or(v: Value, default: Value): (r: Value)
    ensures Truthy(v) ==> r == v
    ensures !Truthy(v) ==> r == default
  {
    if Truthy(v) then v else default
  }

  function JoinInts(items: seq<int>): string
  {
    Join(",", seq(|items|, i requires 0 <= i < |items| => IntToString(items[i])))
  }

  /** `String(v)`, the conversion that `'a' + v` applies. */
  function ToJsString(v: Value): string
  {
    match v
    case Undefined => "undefined"
    case Null => "null"
    case Bool(b) => if b then "true" else "false"
    case Num(n) => IntToString(n)
    case Str(s) => s
    case Arr(items) => JoinInts(items)
  }

  /**
   * The characters `String.prototype.trim` removes: the white space characters
   * (tab, vertical tab, form feed, space, no-break space, the byte order mark
   * and the space separators of Unicode category Zs) and the line terminators
   * (line feed, carriage return, line and paragraph separators).
   */
  predicate IsJsSpace(c: char)
  {
    || c == '\t' || c == '\U{000B}' || c == '\U{000C}' || c == ' ' || c == '\U{00A0}' || c == '\U{FEFF}'
    || c == '\U{1680}' || '\U{2000}' <= c <= '\U{200A}' || c == '\U{202F}' || c == '\U{205F}' || c == '\U{3000}'
    || c == '\n' || c == '\r' || c == '\U{2028}' || c == '\U{2029}'
  }

  /**
   * Backbone.Validation's `hasValue`: not null, not undefined, not a string
   * that trims to '', not an empty array.
   */
  predicate HasValue(v: Value)
  {
    match v
    case Undefined => false
    case Null => false
    case Str(s) => exists i :: 0 <= i < |s| && !IsJsSpace(s[i])
    case Arr(items) => items != []
    case _ => true
  }
}
