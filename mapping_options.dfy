/** The per-field descriptor (src/lib/mapping-options.ts) and the partial descriptors the decorators merge into it. */
module MappingOptionsModel {
  import opened Errors

  /** The declared expected type of a field (`expectedJsonType`). */
  datatype TypeRef =
    | AnyType
    | StringType
    | NumberType
    | BooleanType
    | ClassType(name: string)  // any other class: a mapped model, or e.g. Date
    | UndefinedType            // no type given: `@JsonProperty()` leaves `undefined` here
    | NullType                 // the older snapshot's constructor default for the type

  /**
   * A converter as given to `@CustomConverter`: either a class (`constructible`) or a
   * ready instance, with the key presence `'serialize' in c` and `'deserialize' in c`.
   */
  datatype ConverterRef = ConverterRef(id: string, constructible: bool, hasSerialize: bool, hasDeserialize: bool)

  /** `new MappingOptions(className, classPropertyName, jsonPropertyName)` takes the defaults below. */
  datatype MappingOptions = MappingOptions(
    className: string,
    classPropertyName: string,
    jsonPropertyName: string,
    isArray: bool := false,
    expectedJsonType: TypeRef := AnyType,
    isOptional: bool := false,
    customMapper: Option<ConverterRef> := None,
    notNull: bool := false,
    overrideInitValue: bool := false)

  /** A `Partial<MappingOptions>`: `Some` marks a key present in the object literal. */
  datatype PartialOptions = PartialOptions(
    className: Option<string> := None,
    classPropertyName: Option<string> := None,
    jsonPropertyName: Option<string> := None,
    isArray: Option<bool> := None,
    expectedJsonType: Option<TypeRef> := None,
    isOptional: Option<bool> := None,
    customMapper: Option<ConverterRef> := None,
    notNull: Option<bool> := None,
    overrideInitValue: Option<bool> := None)

  /** `Object.assign(o, p)`: every key present in `p` overwrites the one in `o`. */
  function Assign(o: MappingOptions, p: PartialOptions): MappingOptions {
    MappingOptions(
      p.className.GetOr(o.className),
      p.classPropertyName.GetOr(o.classPropertyName),
      p.jsonPropertyName.GetOr(o.jsonPropertyName),
      p.isArray.GetOr(o.isArray),
      p.expectedJsonType.GetOr(o.expectedJsonType),
      p.isOptional.GetOr(o.isOptional),
      if p.customMapper.Some? then p.customMapper else o.customMapper,
      p.notNull.GetOr(o.notNull),
      p.overrideInitValue.GetOr(o.overrideInitValue))
  }

  /** The mutually exclusive pair that every merge checks. */
  predicate Incompatible(o: MappingOptions) {
    o.isOptional && o.notNull
  }

  /** `{ overrideInitValues?: boolean }`: the key may be present and still hold `undefined`. */
  datatype ClassMappingOptions = ClassMappingOptions(hasOverrideKey: bool, overrideInitValues: Option<bool>)

  /** `'overrideInitValues' in obj`. */
  predicate IsInstanceOfClassMappingOptions(obj: ClassMappingOptions) {
    obj.hasOverrideKey
  }

  lemma DefaultsOfNewMappingOptions(c: string, p: string, j: string)
    ensures var o := MappingOptions(c, p, j);
      && !o.isArray && !o.isOptional && !o.notNull && o.customMapper == None
      && o.expectedJsonType == AnyType && !o.overrideInitValue
      && o.className == c && o.classPropertyName == p && o.jsonPropertyName == j
  {
  }

  /** Merging keeps what a partial leaves out and takes what it supplies; for two merges the later one wins. */
  lemma AssignLastWriterWins(o: MappingOptions, p1: PartialOptions, p2: PartialOptions)
    ensures Assign(Assign(o, p1), p2).className == p2.className.GetOr(p1.className.GetOr(o.className))
    ensures Assign(Assign(o, p1), p2).classPropertyName == p2.classPropertyName.GetOr(p1.classPropertyName.GetOr(o.classPropertyName))
    ensures Assign(Assign(o, p1), p2).jsonPropertyName == p2.jsonPropertyName.GetOr(p1.jsonPropertyName.GetOr(o.jsonPropertyName))
    ensures Assign(Assign(o, p1), p2).isArray == p2.isArray.GetOr(p1.isArray.GetOr(o.isArray))
    ensures Assign(Assign(o, p1), p2).expectedJsonType == p2.expectedJsonType.GetOr(p1.expectedJsonType.GetOr(o.expectedJsonType))
    ensures Assign(Assign(o, p1), p2).isOptional == p2.isOptional.GetOr(p1.isOptional.GetOr(o.isOptional))
    ensures Assign(Assign(o, p1), p2).customMapper == (if p2.customMapper.Some? then p2.customMapper else if p1.customMapper.Some? then p1.customMapper else o.customMapper)
    ensures Assign(Assign(o, p1), p2).notNull == p2.notNull.GetOr(p1.notNull.GetOr(o.notNull))
    ensures Assign(Assign(o, p1), p2).overrideInitValue == p2.overrideInitValue.GetOr(p1.overrideInitValue.GetOr(o.overrideInitValue))
    ensures Assign(o, PartialOptions()) == o
  {
  }

  /** `@Optional` and `@NotNull` on one property clash whichever of the two is merged first. */
  lemma IncompatibleWhicheverFirst(o: MappingOptions)
    ensures Incompatible(Assign(Assign(o, PartialOptions(isOptional := Some(true))), PartialOptions(notNull := Some(true))))
    ensures Incompatible(Assign(Assign(o, PartialOptions(notNull := Some(true))), PartialOptions(isOptional := Some(true))))
  {
  }
}
