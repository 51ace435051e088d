/**
 * `checkType`, identical in both service files: a shallow `typeof` test
 * against the declared type, looking only at the first element of an array.
 */
module TypeCheck {
  import opened Values
  import opened MappingOptionsModel

  /** The `switch (expectedJsonType)`; an omitted type falls back to the `= Any` default. */
  predicate CheckScalar(v: Value, t: TypeRef) {
    match t
    case AnyType => true
    case UndefinedType => true
    case StringType => TypeOf(v) == StringT
    case NumberType => TypeOf(v) == NumberT
    case BooleanType => TypeOf(v) == BooleanT
    case _ => TypeOf(v) == ObjectT
  }

  predicate CheckType(v: Value, t: TypeRef, isArray: bool) {
    if isArray then
      match v
      case Arr(es) => |es| == 0 || CheckScalar(es[0], t)
      case _ => false
    else CheckScalar(v, t)
  }

  /** The scalar test, case by case: no coercion, and every class other than the three wrappers asks only for an object. */
  lemma ScalarCases(v: Value, t: TypeRef)
    ensures (t.AnyType? || t.UndefinedType?) ==> CheckScalar(v, t)
    ensures t.StringType? ==> (CheckScalar(v, t) <==> v.Str?)
    ensures t.NumberType? ==> (CheckScalar(v, t) <==> v.Num?)
    ensures t.BooleanType? ==> (CheckScalar(v, t) <==> v.Bool?)
    ensures (t.ClassType? || t.NullType?) ==> (CheckScalar(v, t) <==> (v.Null? || v.Arr? || v.Obj? || v.Inst?))
  {
  }

  /** With the array flag, a non-array fails, an empty array passes, and otherwise only the first element decides. */
  lemma ArrayChecksFirstElementOnly(v: Value, t: TypeRef)
    ensures !v.Arr? ==> !CheckType(v, t, true)
    ensures v.Arr? && |v.elems| == 0 ==> CheckType(v, t, true)
    ensures v.Arr? && |v.elems| > 0 ==> (CheckType(v, t, true) <==> CheckScalar(v.elems[0], t))
  {
  }

  /** A heterogeneous array passes when its head has the right type. */
  lemma HeterogeneousArrayPasses()
    ensures CheckType(Arr([Str("a"), Num(1), Bool(true)]), StringType, true)
    ensures !CheckType(Arr([Num(1), Str("a")]), StringType, true)
  {
  }

  /** `null` counts as an object and so satisfies every class type. */
  lemma NullPassesAsObject(c: string)
    ensures CheckScalar(Null, ClassType(c))
    ensures !CheckScalar(Null, StringType) && !CheckScalar(Undefined, ClassType(c))
  {
  }
}
