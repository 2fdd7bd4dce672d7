/**
 * The JSON-shaped values the server receives from the remote API and from
 * tool arguments, with the three JavaScript operations it applies to them:
 * member access (`v.key`), truthiness (`v || other`), and conversion to text
 * inside a template literal or `Array.prototype.join`.
 */
module JsValues {
  import opened Wrappers
  import opened Text

  /** A parsed JSON value. Numbers are integers; objects map member names to values. */
  datatype Value =
    | Null
    | Bool(b: bool)
    | Num(n: int)
    | Str(s: string)
    | Arr(elems: seq<Value>)
    | Obj(members: map<string, Value>)

  /** `v.key`; `None` is `undefined`, which is what every non-object yields. */
  function Get(v: Value, key: string): (r: Option<Value>)
    ensures r.Some? <==> v.Obj? && key in v.members
  {
    if v.Obj? && key in v.members then Some(v.members[key]) else None
  }

  /** JavaScript truthiness of a possibly-undefined value. */
  predicate Truthy(v: Option<Value>)
  {
    match v
    case None => false
    case Some(Null) => false
    case Some(Bool(b)) => b
    case Some(Num(n)) => n != 0
    case Some(Str(s)) => s != ""
    case Some(Arr(_)) => true
    case Some(Obj(_)) => true
  }

  /** `String(v)`, which is what `${v}` produces. */
  function ToText(v: Value): string
    decreases v, 1
  {
    match v
    case Null => "null"
    case Bool(b) => if b then "true" else "false"
    case Num(n) => IntToString(n)
    case Str(s) => s
    case Arr(es) => Join(ElementTexts(v), ",")
    case Obj(_) => "[object Object]"
  }

  /** How `join` renders each element of an array: `null` and `undefined` as the empty string. */
  function ElementTexts(v: Value): (ts: seq<string>)
    requires v.Arr?
    ensures |ts| == |v.elems|
    decreases v, 0
  {
    seq(|v.elems|, i requires 0 <= i < |v.elems| => JoinText(Some(v.elems[i])))
  }

  /** One element as `Array.prototype.join` renders it. */
  function JoinText(v: Option<Value>): string
    decreases if v.Some? then v.value else Null, 2
  {
    match v
    case None => ""
    case Some(Null) => ""
    case Some(x) => ToText(x)
  }

  /** `${v}` for a possibly-undefined value. */
  function TemplateText(v: Option<Value>): string
  {
    if v.None? then "undefined" else ToText(v.value)
  }

  /** The `length` of an array or a string, `0` when that is undefined (`v?.length || 0`). */
  function LengthOr0(v: Option<Value>): nat
  {
    match v
    case Some(Arr(es)) => |es|
    case Some(Str(s)) => |s|
    case _ => 0
  }
}
