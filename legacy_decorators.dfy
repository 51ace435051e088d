/**
 * The decorators of the older snapshot, projects/json-ts-mapper/src/lib/decorators.ts.
 * Modifiers record a flag under their own key; `@JsonProperty` builds the whole
 * descriptor at once from the flags recorded so far; the class decorators copy
 * the descriptors from the prototype to the class.
 */
module LegacyDecorators {
  import opened Errors
  import opened Assoc
  import opened MappingOptionsModel
  import opened Reflection
  import D = Decorators

  const MAPPING_OPTIONS_OPTIONAL := "jtsm_mapping_optional"
  const MAPPING_OPTIONS_NOTNULL := "jtsm_mapping_not_null"
  const MAPPING_OPTIONS_MAPPER := "jtsm_mapping_mapper"

  /** `${prefix}-${classPropertyName}`. */
  function FlagKey(prefix: string, classPropertyName: string): string {
    prefix + "-" + classPropertyName
  }

  /** The prototype's entries whose key starts with MAPPING_OPTIONS, in key order. */
  function PrefixedEntries(t: Table): (r: Table)
    ensures forall i :: 0 <= i < |r| ==> StartsWith(r[i].key, MAPPING_OPTIONS)
    ensures forall e :: e in r <==> e in t && StartsWith(e.key, MAPPING_OPTIONS)
  {
    if t == [] then []
    else if StartsWith(t[0].key, MAPPING_OPTIONS) then [t[0]] + PrefixedEntries(t[1..])
    else PrefixedEntries(t[1..])
  }

  /** The copy loop: each entry is defined on the class with the prototype's value. */
  function CopyEntries(meta: Metadata, cls: string, es: Table): Metadata
    decreases |es|
  {
    if es == [] then meta
    else CopyEntries(DefineMetadata(meta, Constructor(cls), es[0].key, es[0].val), cls, es[1..])
  }

  /** `@JsonObject` on class `cls`. */
  function JsonObjectEffect(meta: Metadata, cls: string): Metadata {
    var marked := DefineMetadata(meta, Constructor(cls), JSON_OBJECT, Marker("__json_object__"));
    CopyEntries(marked, cls, PrefixedEntries(TableOf(marked, Prototype(cls))))
  }

  method JsonObject(store: MetadataStore, cls: string)
    modifies store
    ensures store.meta == JsonObjectEffect(old(store.meta), cls)
  {
    store.meta := DefineMetadata(store.meta, Constructor(cls), JSON_OBJECT, Marker("__json_object__"));
    var entries := PrefixedEntries(TableOf(store.meta, Prototype(cls)));
    ghost var marked := store.meta;
    var i := 0;
    while i < |entries|
      invariant 0 <= i <= |entries|
      invariant CopyEntries(marked, cls, entries) == CopyEntries(store.meta, cls, entries[i..])
    {
      assert entries[i..][0] == entries[i] && entries[i..][1..] == entries[i + 1..];
      store.meta := DefineMetadata(store.meta, Constructor(cls), entries[i].key, entries[i].val);
      i := i + 1;
    }
  }

  /**
   * The copy loop of `@JsonObjectOptions`: the class-level override is applied only to
   * keys that also start with MAPPING_OPTIONS_MAPPER (and then also to the object
   * the prototype shares).
   */
  function CopyEntriesWithOverride(meta: Metadata, cls: string, es: Table, options: ClassMappingOptions): Metadata
    decreases |es|
  {
    if es == [] then meta
    else
      var key := es[0].key;
      var rewrite := StartsWith(key, MAPPING_OPTIONS_MAPPER) && options.overrideInitValues.Some? && es[0].val.Options?;
      var v := if rewrite then Options(es[0].val.options.(overrideInitValue := options.overrideInitValues.value)) else es[0].val;
      var shared := if rewrite then DefineMetadata(meta, Prototype(cls), key, v) else meta;
      CopyEntriesWithOverride(DefineMetadata(shared, Constructor(cls), key, v), cls, es[1..], options)
  }

  function JsonObjectOptionsEffect(meta: Metadata, cls: string, options: ClassMappingOptions): Metadata {
    var marked := DefineMetadata(meta, Constructor(cls), JSON_OBJECT, Marker("__json_object__"));
    CopyEntriesWithOverride(marked, cls, PrefixedEntries(TableOf(marked, Prototype(cls))), options)
  }

  /** `@JsonObjectOptions(options)` on class `cls`. */
  method JsonObjectOptions(store: MetadataStore, cls: string, options: ClassMappingOptions)
    modifies store
    ensures store.meta == JsonObjectOptionsEffect(old(store.meta), cls, options)
  {
    store.meta := DefineMetadata(store.meta, Constructor(cls), JSON_OBJECT, Marker("__json_object__"));
    var entries := PrefixedEntries(TableOf(store.meta, Prototype(cls)));
    ghost var marked := store.meta;
    var i := 0;
    while i < |entries|
      invariant 0 <= i <= |entries|
      invariant CopyEntriesWithOverride(marked, cls, entries, options) == CopyEntriesWithOverride(store.meta, cls, entries[i..], options)
    {
      assert entries[i..][0] == entries[i] && entries[i..][1..] == entries[i + 1..];
      var key := entries[i].key;
      var metadata := entries[i].val;
      if StartsWith(key, MAPPING_OPTIONS_MAPPER) && options.overrideInitValues.Some? && metadata.Options? {
        metadata := Options(metadata.options.(overrideInitValue := options.overrideInitValues.value));
        store.meta := DefineMetadata(store.meta, Prototype(cls), key, metadata);
      }
      store.meta := DefineMetadata(store.meta, Constructor(cls), key, metadata);
      i := i + 1;
    }
  }

  /** The type `new MappingOptions(..., expectedType)` stores: `undefined` takes the parameter's `null` default. */
  function ConstructorDefault(t: TypeRef): TypeRef {
    if t.UndefinedType? then NullType else t
  }

  /**
   * The descriptor `@JsonProperty(jsonPropertyName, expectedType)` defines, built from
   * the flags already recorded on the prototype: optional only when not-null is
   * absent, which forces it off, and the recorded converter. An omitted or
   * `undefined` type leaves the constructor's `null` default.
   */
  function LegacyDescriptor(meta: Metadata, cls: string, classPropertyName: string, jsonPropertyName: Option<string>, expectedType: D.TypeArg)
    : Result<MappingOptions>
  {
    if expectedType.TypeArray? && |expectedType.elems| != 1 then Err(TypeArrayLength)
    else
      var t := match expectedType
               case NoType => NullType
               case Single(t) => ConstructorDefault(t)
               case TypeArray(ts) => ConstructorDefault(ts[0]);
      var target := Prototype(cls);
      var optional := HasMetadata(meta, target, FlagKey(MAPPING_OPTIONS_OPTIONAL, classPropertyName));
      var notNull := HasMetadata(meta, target, FlagKey(MAPPING_OPTIONS_NOTNULL, classPropertyName));
      var mapper := GetMetadata(meta, target, FlagKey(MAPPING_OPTIONS_MAPPER, classPropertyName));
      Ok(MappingOptions(cls, classPropertyName, jsonPropertyName.GetOr(classPropertyName), expectedType.TypeArray?, t,
                        isOptional := optional && !notNull,
                        customMapper := if mapper.Some? && mapper.value.Mapper? then Some(mapper.value.converter) else None,
                        notNull := notNull))
  }

  method JsonProperty(store: MetadataStore, cls: string, classPropertyName: string, jsonPropertyName: Option<string>, expectedType: D.TypeArg)
    returns (thrown: Option<Error>)
    modifies store
    ensures var d := LegacyDescriptor(old(store.meta), cls, classPropertyName, jsonPropertyName, expectedType);
      && (d.Err? ==> thrown == Some(d.error) && store.meta == old(store.meta))
      && (d.Ok? ==> thrown.None? && store.meta == DefineMetadata(old(store.meta), Prototype(cls), OptionsKey(classPropertyName), Options(d.value)))
  {
    var isArray := false;
    var t := NullType;
    match expectedType {
      case NoType =>
      case Single(single) => t := single;
      case TypeArray(ts) =>
        if |ts| != 1 {
          return Some(TypeArrayLength);
        }
        isArray := true;
        t := ts[0];
    }
    if t.UndefinedType? {
      // A default parameter also applies to an argument passed as `undefined`.
      t := NullType;
    }
    assert isArray == expectedType.TypeArray?;
    assert t == match expectedType
                case NoType => NullType
                case Single(single) => ConstructorDefault(single)
                case TypeArray(ts) => ConstructorDefault(ts[0]);
    var name := if jsonPropertyName.None? then classPropertyName else jsonPropertyName.value;
    var target := Prototype(cls);
    var options := MappingOptions(cls, classPropertyName, name, isArray, t);
    var optional := HasMetadata(store.meta, target, FlagKey(MAPPING_OPTIONS_OPTIONAL, classPropertyName));
    var notNull := HasMetadata(store.meta, target, FlagKey(MAPPING_OPTIONS_NOTNULL, classPropertyName));
    var mapper := GetMetadata(store.meta, target, FlagKey(MAPPING_OPTIONS_MAPPER, classPropertyName));
    if optional {
      options := options.(isOptional := true);
    }
    assert options == MappingOptions(cls, classPropertyName, name, isArray, t, isOptional := optional);
    if notNull {
      options := options.(notNull := true);
      options := options.(isOptional := false);
    }
    assert options == MappingOptions(cls, classPropertyName, name, isArray, t, isOptional := optional && !notNull, notNull := notNull);
    if mapper.Some? && mapper.value.Mapper? {
      options := options.(customMapper := Some(mapper.value.converter));
    }
    assert options == LegacyDescriptor(store.meta, cls, classPropertyName, jsonPropertyName, expectedType).value;
    store.meta := DefineMetadata(store.meta, target, OptionsKey(classPropertyName), Options(options));
    return None;
  }

  method Optional(store: MetadataStore, cls: string, classPropertyName: string) returns (thrown: Option<Error>)
    modifies store
    ensures HasMetadata(old(store.meta), Prototype(cls), FlagKey(MAPPING_OPTIONS_NOTNULL, classPropertyName)) ==>
      thrown == Some(IncompatibleAnnotations) && store.meta == old(store.meta)
    ensures !HasMetadata(old(store.meta), Prototype(cls), FlagKey(MAPPING_OPTIONS_NOTNULL, classPropertyName)) ==>
      thrown.None? && store.meta == DefineMetadata(old(store.meta), Prototype(cls), FlagKey(MAPPING_OPTIONS_OPTIONAL, classPropertyName), Flag(true))
  {
    if HasMetadata(store.meta, Prototype(cls), FlagKey(MAPPING_OPTIONS_NOTNULL, classPropertyName)) {
      return Some(IncompatibleAnnotations);
    }
    store.meta := DefineMetadata(store.meta, Prototype(cls), FlagKey(MAPPING_OPTIONS_OPTIONAL, classPropertyName), Flag(true));
    return None;
  }

  method NotNull(store: MetadataStore, cls: string, classPropertyName: string) returns (thrown: Option<Error>)
    modifies store
    ensures HasMetadata(old(store.meta), Prototype(cls), FlagKey(MAPPING_OPTIONS_OPTIONAL, classPropertyName)) ==>
      thrown == Some(IncompatibleAnnotations) && store.meta == old(store.meta)
    ensures !HasMetadata(old(store.meta), Prototype(cls), FlagKey(MAPPING_OPTIONS_OPTIONAL, classPropertyName)) ==>
      thrown.None? && store.meta == DefineMetadata(old(store.meta), Prototype(cls), FlagKey(MAPPING_OPTIONS_NOTNULL, classPropertyName), Flag(true))
  {
    if HasMetadata(store.meta, Prototype(cls), FlagKey(MAPPING_OPTIONS_OPTIONAL, classPropertyName)) {
      return Some(IncompatibleAnnotations);
    }
    store.meta := DefineMetadata(store.meta, Prototype(cls), FlagKey(MAPPING_OPTIONS_NOTNULL, classPropertyName), Flag(true));
    return None;
  }

  method CustomConverter(store: MetadataStore, cls: string, classPropertyName: string, customMapper: ConverterRef)
    modifies store
    ensures store.meta == DefineMetadata(old(store.meta), Prototype(cls), FlagKey(MAPPING_OPTIONS_MAPPER, classPropertyName), Mapper(customMapper))
  {
    store.meta := DefineMetadata(store.meta, Prototype(cls), FlagKey(MAPPING_OPTIONS_MAPPER, classPropertyName), Mapper(customMapper));
  }
}
