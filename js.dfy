/** The JavaScript values that flow through the join layer: option values,
    mapping definitions, document fields and queries. Only the operations the
    joins perform on them are modelled: loose comparison with undefined,
    `typeof`, property read, conversion to a property key, and `v[0]`. */
module Js {

  datatype Option<+T> = None | Some(value: T)

  datatype Result<+R, +E> = Success(value: R) | Failure(error: E)

  /** A JavaScript value. Numbers are restricted to integers; an ObjectId is
      represented by its hexadecimal text; a function by an identity and its
      source text. */
  datatype JsVal =
    | Undefined
    | Null
    | Bool(b: bool)
    | Num(n: int)
    | Str(s: string)
    | Oid(hex: string)
    | Arr(elems: seq<JsVal>)
    | Obj(props: map<string, JsVal>)
    | Func(id: nat, source: string)

  /** `v == undefined` (loose equality), which also holds for null. */
  predicate Nullish(v: JsVal) {
    v.Undefined? || v.Null?
  }

  /** `v != undefined && v != null`: the value is set. */
  predicate IsSet(v: JsVal) {
    !Nullish(v)
  }

  /** The `typeof` operator. */
  function Typeof(v: JsVal): (t: string)
    ensures t == "object" <==> v.Null? || v.Oid? || v.Arr? || v.Obj?
    ensures t == "function" <==> v.Func?
    ensures t == "string" <==> v.Str?
  {
    match v
    case Undefined => "undefined"
    case Null => "object"
    case Bool(_) => "boolean"
    case Num(_) => "number"
    case Str(_) => "string"
    case Oid(_) => "object"
    case Arr(_) => "object"
    case Obj(_) => "object"
    case Func(_, _) => "function"
  }

  /** Property read `v.key`. Reading a property of undefined or null throws,
      so callers rule those out. Only plain objects carry the named
      properties the joins read (`to`, `from`, `oid`, `namespace`); none of
      those names is an array index or `length`. */
  function Get(v: JsVal, key: string): (r: JsVal)
    requires IsSet(v)
    ensures !v.Obj? ==> r == Undefined
    ensures v.Obj? && key !in v.props ==> r == Undefined
  {
    if v.Obj? && key in v.props then v.props[key] else Undefined
  }

  /** `v[0]` on a value that is not undefined or null. */
  function Index0(v: JsVal): (r: JsVal)
    requires IsSet(v)
  {
    match v
    case Arr(e) => if |e| > 0 then e[0] else Undefined
    case Str(s) => if |s| > 0 then Str([s[0]]) else Undefined
    case Obj(m) => if "0" in m then m["0"] else Undefined
    case _ => Undefined
  }

  /** The argument a one-parameter method receives from
      `this[i].apply(this, Array.isArray(v) ? v : [v])`: the first element of
      an array (undefined when it is empty), otherwise the value itself. */
  function FirstArg(v: JsVal): (r: JsVal)
    ensures !v.Arr? ==> r == v
    ensures v.Arr? && |v.elems| > 0 ==> r == v.elems[0]
    ensures v.Arr? && |v.elems| == 0 ==> r == Undefined
  {
    match v
    case Arr(e) => if |e| > 0 then e[0] else Undefined
    case _ => v
  }

  function DigitChar(d: nat): (c: char)
    requires d < 10
  {
    "0123456789"[d]
  }

  /** Decimal text of a natural number, without leading zeros. */
  function Decimal(n: nat): (s: string)
    ensures |s| > 0
    decreases n
  {
    if n < 10 then [DigitChar(n)] else Decimal(n / 10) + [DigitChar(n % 10)]
  }

  /** `String(v)`, which is also the property key `v` stands for in
      `obj[v]`. An array joins its elements with commas, writing undefined
      and null elements as empty text. */
  function ToStr(v: JsVal): (s: string)
  {
    match v
    case Undefined => "undefined"
    case Null => "null"
    case Bool(b) => if b then "true" else "false"
    case Num(n) => if n < 0 then "-" + Decimal(-n) else Decimal(n)
    case Str(s) => s
    case Oid(h) => h
    case Arr(e) => JoinElements(e)
    case Obj(_) => "[object Object]"
    case Func(_, src) => src
  }

  function JoinElements(es: seq<JsVal>): (s: string)
  {
    if |es| == 0 then ""
    else
      var head := if Nullish(es[0]) then "" else ToStr(es[0]);
      if |es| == 1 then head else head + "," + JoinElements(es[1..])
  }
}
