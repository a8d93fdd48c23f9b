/**
 * Runtime values as they flow through reflection and the data reader, and
 * the part of `PropertyInfo.SetValue` that the materialiser depends on.
 */
module Values {
  import opened Wrappers

  /** A boxed value: a CLR null, the reader's `DBNull`, or a column value. */
  datatype Value = Null | DbNull | Int(i: int) | Text(s: string) | Bit(b: bool)

  /** The declared type of a property of a response type. */
  datatype PropType = IntType | NullableIntType | StringType | BoolType | ObjectType

  /** The value a property holds after `SetValue(obj, null)`: `default(T)`. */
  function ZeroOf(t: PropType): (v: Value)
    ensures v == Null <==> t !in {IntType, BoolType}
  {
    match t
    case IntType => Int(0)
    case BoolType => Bit(false)
    case _ => Null
  }

  /** A non-null boxed value whose runtime type the property's type accepts. */
  predicate Assignable(t: PropType, v: Value)
  {
    match v
    case Null => false
    case DbNull => t == ObjectType
    case Int(_) => t in {IntType, NullableIntType, ObjectType}
    case Text(_) => t in {StringType, ObjectType}
    case Bit(_) => t in {BoolType, ObjectType}
  }

  /**
   * `PropertyInfo.SetValue(obj, v)` on a property of type `t`: `None` when it
   * throws (no setter, or a value of the wrong runtime type), otherwise the
   * value the property then holds (null becomes `default(T)`).
   */
  function SetValue(t: PropType, hasSetter: bool, v: Value): (r: Option<Value>)
    ensures r.Some? <==> hasSetter && (v == Null || Assignable(t, v))
    ensures r.Some? && v != Null ==> r.value == v
    ensures r.Some? && v == Null ==> r.value == ZeroOf(t)
  {
    if !hasSetter then None
    else if v == Null then Some(ZeroOf(t))
    else if Assignable(t, v) then Some(v)
    else None
  }
}
