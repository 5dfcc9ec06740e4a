/** JavaScript values as the client sees them once a response body is parsed,
    with the handful of operators the client applies to them: truthiness,
    `||`, member access (`.` and `?.`) and strict equality. */
module Js {

  /** A parsed JSON value, plus `undefined`. Numbers are integers here; floating
      point is not modelled. Object field order is not modelled. */
  datatype Value =
    | Undefined
    | Null
    | Bool(b: bool)
    | Num(n: int)
    | Str(s: string)
    | Arr(items: seq<Value>)
    | Obj(fields: map<string, Value>)

  datatype Option<T> = None | Some(value: T)

  /** A failed member access on `null`/`undefined` raises a TypeError. */
  datatype Result<T> = Ok(value: T) | TypeError

  /** `null` and `undefined`, the two values `?.` short-circuits on. */
  predicate Nullish(v: Value) {
    v.Undefined? || v.Null?
  }

  /** JavaScript's ToBoolean: the falsy values are undefined, null, false, 0 and "". */
  predicate Truthy(v: Value) {
    match v
    case Undefined => false
    case Null => false
    case Bool(b) => b
    case Num(n) => n != 0
    case Str(s) => s != ""
    case Arr(_) => true
    case Obj(_) => true
  }

  /** `v.k` on a value that is not null or undefined, for a key that is not a
      built-in or inherited property (such as a string's `length` or an
      object's `constructor`): an object's own field, or undefined when it is
      missing or `v` is not an object. */
  function Prop(v: Value, k: string): (r: Value)
    requires !Nullish(v)
    ensures v.Obj? && k in v.fields ==> r == v.fields[k]
    ensures !(v.Obj? && k in v.fields) ==> r == Undefined
  {
    if v.Obj? && k in v.fields then v.fields[k] else Undefined
  }

  /** `v.k`: throws a TypeError exactly when `v` is null or undefined. */
  function Member(v: Value, k: string): (r: Result<Value>)
    ensures r.TypeError? <==> Nullish(v)
    ensures r.Ok? ==> r.value == Prop(v, k)
  {
    if Nullish(v) then TypeError else Ok(Prop(v, k))
  }

  /** `v?.k`: undefined when `v` is null or undefined, never throws. */
  function OptMember(v: Value, k: string): (r: Value)
    ensures Nullish(v) ==> r == Undefined
    ensures !Nullish(v) ==> r == Prop(v, k)
  {
    if Nullish(v) then Undefined else Prop(v, k)
  }

  /** `a || b`: `a` when it is truthy, otherwise `b`. */
  function Or(a: Value, b: Value): (r: Value)
    ensures Truthy(a) ==> r == a
    ensures !Truthy(a) ==> r == b
    ensures Truthy(r) <==> Truthy(a) || Truthy(b)
  {
    if Truthy(a) then a else b
  }

  /** Values that `===` compares by value. Objects and arrays compare by
      reference, which a `Value` does not carry. */
  predicate Primitive(v: Value) {
    !v.Arr? && !v.Obj?
  }

  /** `a === b` where `a` and `b` do not come from the same parse: an object
      or array read from one response is never the same reference as one read
      from another, so only primitives can be equal (NaN is not modelled). */
  predicate StrictEq(a: Value, b: Value) {
    Primitive(a) && a == b
  }

  /** `===` is symmetric; a value and an independently parsed copy of it are
      strictly equal exactly when the value is a primitive. */
  lemma StrictEqSymmetric(a: Value, b: Value)
    ensures StrictEq(a, b) <==> StrictEq(b, a)
    ensures StrictEq(a, a) <==> Primitive(a)
  {
  }

  /** A chain of strict reads `v.k1.k2...`: the first nullish intermediate throws. */
  function Path(v: Value, keys: seq<string>): (r: Result<Value>)
    decreases |keys|
  {
    if keys == [] then Ok(v)
    else match Member(v, keys[0])
      case TypeError => TypeError
      case Ok(w) => Path(w, keys[1..])
  }

  /** A chain of optional reads `v?.k1?.k2...`: never throws. */
  function OptPath(v: Value, keys: seq<string>): (r: Value)
    decreases |keys|
  {
    if keys == [] then v else OptPath(OptMember(v, keys[0]), keys[1..])
  }

  /** Where the strict chain succeeds the optional chain reads the same value;
      where it throws, the optional chain yields undefined. */
  lemma {:induction false} PathAgreesWithOptPath(v: Value, keys: seq<string>)
    requires keys != []
    ensures Path(v, keys).Ok? ==> OptPath(v, keys) == Path(v, keys).value
    ensures Path(v, keys).TypeError? ==> OptPath(v, keys) == Undefined
    decreases |keys|
  {
    if Nullish(v) {
      OptPathOfUndefined(keys[1..]);
    } else if |keys| > 1 {
      assert Path(v, keys) == Path(Prop(v, keys[0]), keys[1..]);
      assert OptPath(v, keys) == OptPath(Prop(v, keys[0]), keys[1..]);
      PathAgreesWithOptPath(Prop(v, keys[0]), keys[1..]);
    } else {
      assert Path(v, keys) == Ok(Prop(v, keys[0]));
      assert OptPath(v, keys) == OptPath(Prop(v, keys[0]), []);
    }
  }

  /** Once a chain has reached undefined, it stays there. */
  lemma {:induction false} OptPathOfUndefined(keys: seq<string>)
    ensures OptPath(Undefined, keys) == Undefined
    decreases |keys|
  {
    if keys != [] {
      OptPathOfUndefined(keys[1..]);
    }
  }
}
