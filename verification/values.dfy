/**
 * JSON values as the Python request handlers see them after the request body
 * is decoded, together with Python's `==` and truthiness on them.
 *
 * JSON integers and floats are both modelled by `Num(real)`, an exact rational
 * number. This agrees with Python's `1 == 1.0`, but not everywhere: Python
 * rounds a float literal to a double, so `0.1` and `0.10000000000000001`
 * decode equal, and compares an int with a float exactly, so
 * `9007199254740993 == 9007199254740993.0` is false. Here the first pair
 * differs and the second is equal.
 */
module Values {

  datatype Value =
    | Null
    | Bool(b: bool)
    | Num(n: real)
    | Str(s: string)
    | Arr(items: seq<Value>)
    | Obj(fields: map<string, Value>)

  /** A decoded JSON object: the request body of every handler. */
  type Body = map<string, Value>

  /** `data.get(key, default)` */
  function Get(data: Body, key: string, default: Value): Value
  {
    if key in data then data[key] else default
  }

  /** Python's `bool` and `int`/`float` compare as numbers (`True == 1`). */
  predicate IsNumeric(v: Value)
  {
    v.Bool? || v.Num?
  }

  function NumOf(v: Value): real
    requires IsNumeric(v)
  {
    if v.Num? then v.n else if v.b then 1.0 else 0.0
  }

  /**
   * Python's `a == b` on decoded JSON values: booleans and numbers compare as
   * numbers, and otherwise only values of the same kind can be equal.
   */
  function PyEq(a: Value, b: Value): (r: bool)
    ensures r && IsNumeric(a) ==> IsNumeric(b) && NumOf(a) == NumOf(b)
    ensures IsNumeric(a) && IsNumeric(b) && NumOf(a) == NumOf(b) ==> r
    ensures r && !IsNumeric(a) ==>
              !IsNumeric(b) && a.Null? == b.Null? && a.Str? == b.Str? && a.Arr? == b.Arr? && a.Obj? == b.Obj?
    ensures r && a.Arr? ==> |a.items| == |b.items|
    ensures r && a.Obj? ==> a.fields.Keys == b.fields.Keys
  {
    if IsNumeric(a) || IsNumeric(b) then
      IsNumeric(a) && IsNumeric(b) && NumOf(a) == NumOf(b)
    else
      match a
      case Null => b.Null?
      case Str(x) => b.Str? && b.s == x
      case Arr(xs) =>
        b.Arr? && |xs| == |b.items| && forall i :: 0 <= i < |xs| ==> PyEq(xs[i], b.items[i])
      case Obj(m) =>
        b.Obj? && m.Keys == b.fields.Keys && forall k :: k in m ==> PyEq(m[k], b.fields[k])
      case Bool(_) => false
      case Num(_) => false
  }

  /** Python's truth value of a decoded JSON value (`if x:`). */
  predicate Truthy(v: Value)
  {
    match v
    case Null => false
    case Bool(b) => b
    case Num(n) => n != 0.0
    case Str(s) => s != ""
    case Arr(xs) => |xs| > 0
    case Obj(m) => |m| > 0
  }

  /** Every value equals itself under Python's `==` (no NaN in this model). */
  lemma {:induction false} PyEqReflexive(a: Value)
    ensures PyEq(a, a)
  {
    match a
    case Arr(xs) =>
      forall i | 0 <= i < |xs|
        ensures PyEq(xs[i], xs[i])
      {
        PyEqReflexive(xs[i]);
      }
    case Obj(m) =>
      forall k | k in m
        ensures PyEq(m[k], m[k])
      {
        PyEqReflexive(m[k]);
      }
    case _ =>
  }

  /** Python's `==` on decoded JSON values is symmetric. */
  lemma {:induction false} PyEqSymmetric(a: Value, b: Value)
    ensures PyEq(a, b) <==> PyEq(b, a)
  {
    if !IsNumeric(a) && !IsNumeric(b) {
      match a
      case Arr(xs) =>
        if b.Arr? && |xs| == |b.items| {
          forall i | 0 <= i < |xs|
            ensures PyEq(xs[i], b.items[i]) <==> PyEq(b.items[i], xs[i])
          {
            PyEqSymmetric(xs[i], b.items[i]);
          }
        }
      case Obj(m) =>
        if b.Obj? && m.Keys == b.fields.Keys {
          forall k | k in m
            ensures PyEq(m[k], b.fields[k]) <==> PyEq(b.fields[k], m[k])
          {
            PyEqSymmetric(m[k], b.fields[k]);
          }
        }
      case _ =>
    }
  }

  /** A string equals exactly the same string, and nothing that is not a string. */
  lemma PyEqString(x: string, v: Value)
    ensures PyEq(Str(x), v) <==> v == Str(x)
  {
  }

  /** `None` equals only `None`. */
  lemma PyEqNull(v: Value)
    ensures PyEq(v, Null) <==> v == Null
  {
  }
}
