/**
 * The mapping engine, `JsonTsMapperService`, in its two versions: the current
 * src/lib/json-ts-mapper.service.ts (`Current`) and the older snapshot under
 * projects/json-ts-mapper (`Legacy`). Both walk the field descriptors recorded
 * on a class; they differ in three places, each marked below.
 */
module MapperService {
  import opened Errors
  import opened Assoc
  import opened Values
  import opened MappingOptionsModel
  import opened Reflection
  import opened TypeCheck

  datatype Variant = Current | Legacy

  /** The converter object `serialize`/`deserialize` is called on: the given instance, or a fresh `new C()`. */
  datatype ConverterInstance = Shared(id: string) | Constructed(id: string)

  /** What user converters compute, given the converter, the value and the caller's context. */
  datatype Converters = Converters(
    serialize: (ConverterInstance, Value, Value) -> Result<Value>,
    deserialize: (ConverterInstance, Value, Value) -> Result<Value>)

  /**
   * The classes the engine sees: the metadata written by the decorators, and for
   * each class the own fields a fresh `new C()` starts with (its property initialisers).
   */
  datatype Registry = Registry(meta: Metadata, defaults: map<string, Props>)

  /** Everything a call carries along: the version, the classes, the converters and the context. */
  datatype Env = Env(variant: Variant, reg: Registry, conv: Converters, ctx: Value)

  /** `Reflect.hasMetadata(JSON_OBJECT, C)`. */
  predicate IsMapped(reg: Registry, cls: string) {
    HasMetadata(reg.meta, Constructor(cls), JSON_OBJECT)
  }

  /** The descriptors `getMetadataKeys(C).filter(...)` yields, in key order. */
  function Descriptors(reg: Registry, cls: string): seq<MappingOptions> {
    MappedOptions(TableOf(reg.meta, Constructor(cls)))
  }

  /** The own fields of `new C()`. */
  function NewInstance(reg: Registry, cls: string): Props {
    if cls in reg.defaults then reg.defaults[cls] else []
  }

  /**
   * `Reflect.hasMetadata(JSON_OBJECT, expectedJsonType)`, returning the mapped class:
   * reflect-metadata throws a TypeError when the type is `undefined` or `null`.
   */
  function MappedClass(reg: Registry, t: TypeRef): (r: Result<Option<string>>)
    ensures r.Err? <==> (t.UndefinedType? || t.NullType?)
    ensures r.Ok? && r.value.Some? <==> t.ClassType? && IsMapped(reg, t.name)
    ensures r.Ok? && r.value.Some? ==> r.value.value == t.name
  {
    match t
    case UndefinedType => Err(RuntimeTypeError)
    case NullType => Err(RuntimeTypeError)
    case ClassType(c) => if IsMapped(reg, c) then Ok(Some(c)) else Ok(None)
    case _ => Ok(None)
  }

  /**
   * The converter object. `Current` uses the given value when it already has the
   * method (`'deserialize' in c`) and constructs it otherwise; `Legacy` always
   * constructs. `new` on something that is not a class is a TypeError.
   */
  function ResolveConverter(variant: Variant, ref: ConverterRef, hasMethod: bool): (r: Result<ConverterInstance>)
    ensures r.Ok? ==> r.value.id == ref.id
    ensures r.Ok? && r.value.Shared? <==> variant == Current && hasMethod
    ensures r.Err? <==> !(variant == Current && hasMethod) && !ref.constructible
  {
    if variant == Current && hasMethod then Ok(Shared(ref.id))
    else if ref.constructible then Ok(Constructed(ref.id))
    else Err(RuntimeTypeError)
  }

  /** The scalar type-mismatch error: building its message reads `expectedJsonType.name`. */
  function MismatchError(t: TypeRef): Error {
    if t.UndefinedType? || t.NullType? then RuntimeTypeError else TypeMismatch
  }

  /**
   * The missing/null policy applied to a nullish value: missing and not optional,
   * then not-null; `undefinedCountsAsNull` is the `Current` deserializer's test,
   * which looks at `notNull` alone.
   */
  function NullPolicy(v: Value, o: MappingOptions, undefinedCountsAsNull: bool): Result<Value> {
    if !o.isOptional && v.Undefined? then Err(MissingProperty)
    else if o.notNull && (v.Null? || (undefinedCountsAsNull && v.Undefined?)) then Err(NotNullViolation)
    else Ok(v)
  }

  // ---------------------------------------------------------------- deserialization

  /** `deserialize(obj, clazz, context)`: an array maps element by element, anything else is one object. */
  function Deserialize(env: Env, v: Value, cls: string): Result<Value>
    decreases Size(v), 5, 0
  {
    match v
    case Str(_) => Err(TextInput)
    case Arr(es) =>
      (match DeserializeArray(env, es, cls)
       case Err(e) => Err(e)
       case Ok(rs) => Ok(Arr(rs)))
    case _ => DeserializeObject(env, v, cls)
  }

  /** `deserializeArray`: `list.map(item => deserializeObject(item))`, stopping at the first error. */
  function DeserializeArray(env: Env, es: seq<Value>, cls: string): Result<seq<Value>>
    decreases 1 + SizeSeq(es), 4, |es|
  {
    if es == [] then Ok([])
    else
      ElementSize(es, 0);
      match DeserializeObject(env, es[0], cls)
      case Err(e) => Err(e)
      case Ok(r) =>
        match DeserializeArray(env, es[1..], cls)
        case Err(e) => Err(e)
        case Ok(rs) => Ok([r] + rs)
  }

  function DeserializeObject(env: Env, v: Value, cls: string): Result<Value>
    decreases Size(v), 3, 0
  {
    if v.Str? then Err(TextInput) else LoopProperties(env, v, cls)
  }

  /** `deserialize_loopProperties`: a fresh instance, then every descriptor in order. */
  function LoopProperties(env: Env, obj: Value, cls: string): Result<Value>
    decreases Size(obj), 2, 0
  {
    if !IsMapped(env.reg, cls) then Err(NotMapped)
    else
      match LoopFields(env, obj, Descriptors(env.reg, cls), NewInstance(env.reg, cls))
      case Err(e) => Err(e)
      case Ok(fields) => Ok(Inst(cls, fields))
  }

  /** The `forEach` over the descriptors, as a left fold over the instance's fields. */
  function LoopFields(env: Env, obj: Value, ds: seq<MappingOptions>, fields: Props): Result<Props>
    decreases Size(obj), 1, |ds|
  {
    if ds == [] then Ok(fields)
    else
      match FieldStep(env, obj, ds[0], fields)
      case Err(e) => Err(e)
      case Ok(next) => LoopFields(env, obj, ds[1..], next)
  }

  /** The value one descriptor resolves to: `obj[jsonPropertyName]` through the property functions. */
  function ResolveField(env: Env, obj: Value, d: MappingOptions): Result<Value>
    decreases Size(obj), 0, 0
  {
    match Member(obj, d.jsonPropertyName)
    case Err(e) => Err(e)
    case Ok(raw) => if d.isArray then DeserializePropertyArray(env, raw, d) else DeserializeProperty(env, raw, d)
  }

  /**
   * One descriptor: resolve, assign, and (`Current` only) put back the value read
   * before the assignment when the field came out `undefined` and the descriptor
   * does not ask to override it.
   */
  function FieldStep(env: Env, obj: Value, d: MappingOptions, fields: Props): Result<Props>
    decreases Size(obj), 0, 1
  {
    var init := Field(fields, d.classPropertyName);
    match ResolveField(env, obj, d)
    case Err(e) => Err(e)
    case Ok(x) =>
      var written := Put(fields, d.classPropertyName, x);
      if x.Undefined? && env.variant == Current && !d.overrideInitValue then Ok(Put(written, d.classPropertyName, init))
      else Ok(written)
  }

  /** `deserializePropertyArray`. */
  function DeserializePropertyArray(env: Env, v: Value, d: MappingOptions): Result<Value>
    decreases Size(v), 8, 0
  {
    if Nullish(v) then NullPolicy(v, d, false)
    else if !CheckType(v, d.expectedJsonType, true) then Err(TypeMismatch)
    else
      match DeserializeElements(env, v.elems, d)
      case Err(e) => Err(e)
      case Ok(rs) => Ok(Arr(rs))
  }

  /** `jsonValues.map(jsonValue => deserializeProperty(jsonValue))`. */
  function DeserializeElements(env: Env, es: seq<Value>, d: MappingOptions): Result<seq<Value>>
    decreases 1 + SizeSeq(es), 6, |es|
  {
    if es == [] then Ok([])
    else
      ElementSize(es, 0);
      match DeserializeProperty(env, es[0], d)
      case Err(e) => Err(e)
      case Ok(r) =>
        match DeserializeElements(env, es[1..], d)
        case Err(e) => Err(e)
        case Ok(rs) => Ok([r] + rs)
  }

  /**
   * `deserializeProperty`: the null policy, then the type check, then a converter,
   * a nested mapped class, or the value itself. The `Current` null test reads
   * `notNull` alone; the `Legacy` one also asks for `null`.
   */
  function DeserializeProperty(env: Env, v: Value, d: MappingOptions): Result<Value>
    decreases Size(v), 7, 0
  {
    if Nullish(v) then NullPolicy(v, d, env.variant == Current)
    else if !CheckType(v, d.expectedJsonType, false) then Err(MismatchError(d.expectedJsonType))
    else
      match d.customMapper
      case Some(ref) =>
        (match ResolveConverter(env.variant, ref, ref.hasDeserialize)
         case Err(e) => Err(e)
         case Ok(c) => env.conv.deserialize(c, v, env.ctx))
      case None =>
        match MappedClass(env.reg, d.expectedJsonType)
        case Err(e) => Err(e)
        case Ok(m) => if m.Some? then Deserialize(env, v, m.value) else Ok(v)
  }

  // ---------------------------------------------------------------- serialization

  /** `serialize(instance, context)`: an array maps element by element. */
  function Serialize(env: Env, v: Value): Result<Value>
    decreases Size(v), 4, 0
  {
    match v
    case Arr(es) =>
      (match SerializeEach(env, es)
       case Err(e) => Err(e)
       case Ok(rs) => Ok(Arr(rs)))
    case _ => SerializeInstance(env, v)
  }

  function SerializeEach(env: Env, es: seq<Value>): Result<seq<Value>>
    decreases 1 + SizeSeq(es), 3, |es|
  {
    if es == [] then Ok([])
    else
      ElementSize(es, 0);
      match SerializeInstance(env, es[0])
      case Err(e) => Err(e)
      case Ok(r) =>
        match SerializeEach(env, es[1..])
        case Err(e) => Err(e)
        case Ok(rs) => Ok([r] + rs)
  }

  /**
   * `serialize_loopProperties`: `instance.constructor` is a TypeError on null and
   * undefined; objects of built-in classes carry no JSON_OBJECT mark. Keys whose
   * value came out `undefined` are deleted at the end.
   */
  function SerializeInstance(env: Env, v: Value): Result<Value>
    decreases Size(v), 2, 0
  {
    if Nullish(v) then Err(RuntimeTypeError)
    else if !v.Inst? || !IsMapped(env.reg, v.cls) then Err(NotMapped)
    else
      match SerializeFields(env, v, Descriptors(env.reg, v.cls), [])
      case Err(e) => Err(e)
      case Ok(json) => Ok(Obj(DropUndefined(json)))
  }

  /** The `forEach` filling `json`, as a left fold. */
  function SerializeFields(env: Env, inst: Value, ds: seq<MappingOptions>, json: Props): Result<Props>
    requires inst.Inst?
    decreases Size(inst), 1, |ds|
  {
    if ds == [] then Ok(json)
    else
      match SerializeFieldStep(env, inst, ds[0], json)
      case Err(e) => Err(e)
      case Ok(next) => SerializeFields(env, inst, ds[1..], next)
  }

  /** The JSON value one descriptor produces from `instance[classPropertyName]`. */
  function SerializeField(env: Env, inst: Value, d: MappingOptions): Result<Value>
    requires inst.Inst?
    decreases Size(inst), 0, 0
  {
    var value := Field(inst.fields, d.classPropertyName);
    FieldSize(inst, inst.fields, d.classPropertyName);
    if d.isArray then SerializePropertyArray(env, value, d) else SerializeProperty(env, value, d)
  }

  /** `json[jsonPropertyName] = ...`. */
  function SerializeFieldStep(env: Env, inst: Value, d: MappingOptions, json: Props): Result<Props>
    requires inst.Inst?
    decreases Size(inst), 0, 1
  {
    match SerializeField(env, inst, d)
    case Err(e) => Err(e)
    case Ok(x) => Ok(Put(json, d.jsonPropertyName, x))
  }

  /** `serializePropertyArray`: the null policy, then `Array.isArray`, then each element. */
  function SerializePropertyArray(env: Env, v: Value, d: MappingOptions): Result<Value>
    decreases Size(v), 7, 0
  {
    if Nullish(v) then NullPolicy(v, d, false)
    else if !v.Arr? then Err(TypeMismatch)
    else
      match SerializeElements(env, v.elems, d)
      case Err(e) => Err(e)
      case Ok(rs) => Ok(Arr(rs))
  }

  function SerializeElements(env: Env, es: seq<Value>, d: MappingOptions): Result<seq<Value>>
    decreases 1 + SizeSeq(es), 5, |es|
  {
    if es == [] then Ok([])
    else
      ElementSize(es, 0);
      match SerializeProperty(env, es[0], d)
      case Err(e) => Err(e)
      case Ok(r) =>
        match SerializeElements(env, es[1..], d)
        case Err(e) => Err(e)
        case Ok(rs) => Ok([r] + rs)
  }

  /** The value a non-nullish property is turned into: converter, nested mapping, or itself. */
  function Produce(env: Env, v: Value, d: MappingOptions): Result<Value>
    decreases Size(v), 5, 0
  {
    match d.customMapper
    case Some(ref) =>
      (match ResolveConverter(env.variant, ref, ref.hasSerialize)
       case Err(e) => Err(e)
       case Ok(c) => env.conv.serialize(c, v, env.ctx))
    case None =>
      match MappedClass(env.reg, d.expectedJsonType)
      case Err(e) => Err(e)
      case Ok(m) => if m.Some? then Serialize(env, v) else Ok(v)
  }

  /**
   * `serializeProperty`: produce the JSON value (null and undefined stay as they
   * are), then apply the null policy and the type check to what was produced.
   */
  function SerializeProperty(env: Env, v: Value, d: MappingOptions): Result<Value>
    decreases Size(v), 6, 0
  {
    var produced := if Nullish(v) then Ok(v) else Produce(env, v, d);
    match produced
    case Err(e) => Err(e)
    case Ok(j) =>
      if Nullish(j) then NullPolicy(j, d, false)
      else if !CheckType(j, d.expectedJsonType, false) then Err(MismatchError(d.expectedJsonType))
      else Ok(j)
  }
}
