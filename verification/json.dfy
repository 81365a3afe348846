/** Decoded JSON values as the dashboard's handlers see them after `request.get_json()`,
    together with the two pieces of Python semantics the handlers rely on:
    truthiness (`if not data['overwrite']`) and `==` (`data['id'] != ...['id']`). */
module Json {

  /** A decoded JSON document. Finite numbers are kept as exact reals. Python's parser
      also accepts the constants `NaN`, `Infinity` and `-Infinity`; each decodes to one
      shared float object, which matters for `==` inside containers (see `PyEq`). */
  datatype Value =
    | Null
    | Bool(b: bool)
    | Num(n: real)
    | NaN
    | Inf(negative: bool)
    | Str(s: string)
    | Arr(items: seq<Value>)
    | Obj(fields: map<string, Value>)

  /** Python's truth value of a decoded JSON value: `None`, `False`, zero and empty
      containers are false; everything else, `NaN` and the infinities included, is true. */
  predicate Truthy(v: Value) {
    match v
    case Null => false
    case Bool(b) => b
    case Num(n) => n != 0.0
    case NaN => true
    case Inf(_) => true
    case Str(s) => |s| > 0
    case Arr(items) => |items| > 0
    case Obj(fields) => |fields| > 0
  }

  /** The values Python compares numerically: bools, numbers, `NaN` and the infinities. */
  predicate Numeric(v: Value) {
    v.Bool? || v.Num? || v.NaN? || v.Inf?
  }

  /** Python's `==` between two numeric values: `True == 1`, `NaN` equals nothing (not
      even itself), an infinity equals only the infinity of the same sign. */
  predicate NumEq(a: Value, b: Value)
    requires Numeric(a) && Numeric(b)
  {
    if a.NaN? || b.NaN? then false
    else if a.Inf? || b.Inf? then a == b
    else
      (if a.Num? then a.n else if a.b then 1.0 else 0.0) ==
      (if b.Num? then b.n else if b.b then 1.0 else 0.0)
  }

  /** Python's `==` on decoded JSON values. Lists compare element-wise and dicts key-wise,
      and there Python first checks object identity: the parser's single `NaN` object is
      therefore equal to itself inside a list or dict, though `NaN == NaN` is false at the
      top level. Values of different kinds are unequal. */
  predicate PyEq(a: Value, b: Value)
    decreases a
  {
    if Numeric(a) && Numeric(b) then NumEq(a, b)
    else match (a, b)
      case (Null, Null) => true
      case (Str(x), Str(y)) => x == y
      case (Arr(xs), Arr(ys)) =>
        |xs| == |ys| &&
        forall i :: 0 <= i < |xs| ==> (xs[i].NaN? && ys[i].NaN?) || PyEq(xs[i], ys[i])
      case (Obj(xm), Obj(ym)) =>
        xm.Keys == ym.Keys &&
        forall k :: k in xm ==> (xm[k].NaN? && ym[k].NaN?) || PyEq(xm[k], ym[k])
      case _ => false
  }

  /** A JSON value is `==` to itself exactly when it is not `NaN` itself; a `NaN` nested
      in a list or dict does not spoil the comparison. */
  lemma {:induction false} PyEqReflexive(a: Value)
    ensures PyEq(a, a) <==> !a.NaN?
    decreases a
  {
    match a
    case Arr(xs) =>
      forall i | 0 <= i < |xs| && !xs[i].NaN? ensures PyEq(xs[i], xs[i]) {
        PyEqReflexive(xs[i]);
      }
    case Obj(xm) =>
      forall k | k in xm && !xm[k].NaN? ensures PyEq(xm[k], xm[k]) {
        PyEqReflexive(xm[k]);
      }
    case _ =>
  }
}
