/**
 The values an object's fields hold in the demonstration, and the part of
 Python's `+` / `+=` semantics that the demonstration relies on: integers add,
 strings concatenate, and mixing the two raises a TypeError.
 */
module Values {

  /** A field value: a Python `int` (unbounded) or a Python `str`. */
  datatype Value = Int(n: int) | Str(s: string)

  /** The errors the modelled code can raise. */
  datatype Error =
    | TypeError(lhs: string, rhs: string)  // unsupported operand types, named as Python names them
    | AttributeError(name: string)         // the object has no such attribute

  /** An object's state: field name to value (Python's `__dict__`). */
  type Fields = map<string, Value>

  /** Normal return with a value, or a raised error. */
  datatype Result<+T> = Ok(value: T) | Err(error: Error)

  /** What a call did to its receiver's field map, paired with how it ended.
      `fields` is the field map at the moment the call returned or raised. */
  datatype Outcome<+T> = Outcome(fields: Fields, result: Result<T>)

  /** Python's name for the type of a value. */
  function TypeName(v: Value): (name: string)
  {
    match v
    case Int(_) => "int"
    case Str(_) => "str"
  }

  /** Python's binary `+` on two field values. */
  function Plus(a: Value, b: Value): (r: Result<Value>)
    ensures r.Ok? <==> a.Int? == b.Int?
    ensures a.Int? && b.Int? ==> r == Ok(Int(a.n + b.n))
    ensures a.Str? && b.Str? ==> r == Ok(Str(a.s + b.s))
    ensures r.Err? ==> r.error == TypeError(TypeName(a), TypeName(b))
  {
    match (a, b)
    case (Int(x), Int(y)) => Ok(Int(x + y))
    case (Str(x), Str(y)) => Ok(Str(x + y))
    case _ => Err(TypeError(TypeName(a), TypeName(b)))
  }

  /** The augmented assignment `obj.name += rhs` on the field map `f`. The right-hand
      side is evaluated before anything is stored, so a failure leaves `f` as it was. */
  function AugAdd(f: Fields, name: string, rhs: Value): (out: Outcome<()>)
    ensures out.result.Ok? <==> name in f && f[name].Int? == rhs.Int?
    ensures name !in f ==> out.result == Err(AttributeError(name))
    ensures name in f && out.result.Err? ==> out.result.error == TypeError(TypeName(f[name]), TypeName(rhs))
    ensures out.result.Err? ==> out.fields == f
    ensures out.result.Ok? ==>
      && out.fields.Keys == f.Keys
      && out.fields[name] == Plus(f[name], rhs).value
      && forall k :: k in f && k != name ==> out.fields[k] == f[k]
  {
    if name !in f then Outcome(f, Err(AttributeError(name)))
    else
      match Plus(f[name], rhs)
      case Ok(v) => Outcome(f[name := v], Ok(()))
      case Err(e) => Outcome(f, Err(e))
  }
}
