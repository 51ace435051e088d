/**
 * The decorators of src/lib/decorators.ts: each one writes the process-wide
 * metadata store. Property decorators receive the class's prototype; class
 * decorators the class itself.
 */
module Decorators {
  import opened Errors
  import opened Assoc
  import opened MappingOptionsModel
  import opened Reflection

  /** The `expectedType` argument of `@JsonProperty`: omitted, one class, or an array of classes. */
  datatype TypeArg = NoType | Single(t: TypeRef) | TypeArray(elems: seq<TypeRef>)

  /** What `JsonObject(arg)` returns: nothing (the class was decorated), or a decorator to apply later. */
  datatype Decoration = Applied | Factory(options: ClassMappingOptions)

  /** The argument of `JsonObject`: `null` or `undefined`, an object literal, or a class together with its static members. */
  datatype JsonObjectArg = NullishArg | OptionsArg(options: ClassMappingOptions) | ClassArg(cls: string, statics: ClassMappingOptions)

  /** A state of the store together with the error thrown on the way to it, if any. */
  datatype Effect = Effect(meta: Metadata, thrown: Option<Error>)

  /** A fresh descriptor: `new MappingOptions('', '', '')`. */
  const Blank := MappingOptions("", "", "")

  /** The descriptor stored under `key`, if that key holds one. */
  function StoredOptions(meta: Metadata, target: Target, key: string): (r: Option<MappingOptions>)
    ensures r.Some? ==> GetMetadata(meta, target, key) == Some(Options(r.value))
  {
    match GetMetadata(meta, target, key)
    case Some(Options(o)) => Some(o)
    case _ => None
  }

  // ------------------------------------------------------------ _addPropertyOptions

  /**
   * `_addPropertyOptions`: merge a partial descriptor into the stored one (or into a
   * blank one). The merge mutates the stored object before the compatibility test,
   * so a rejected merge still changes an existing descriptor.
   */
  function MergeOptions(meta: Metadata, target: Target, propertyName: string, p: PartialOptions): Effect {
    var key := OptionsKey(propertyName);
    var stored := StoredOptions(meta, target, key);
    var merged := Assign(stored.GetOr(Blank), p);
    if !Incompatible(merged) then Effect(DefineMetadata(meta, target, key, Options(merged)), None)
    else if stored.Some? then Effect(DefineMetadata(meta, target, key, Options(merged)), Some(IncompatibleAnnotations))
    else Effect(meta, Some(IncompatibleAnnotations))
  }

  method AddPropertyOptions(store: MetadataStore, target: Target, propertyName: string, options: PartialOptions)
    returns (thrown: Option<Error>)
    modifies store
    ensures Effect(store.meta, thrown) == MergeOptions(old(store.meta), target, propertyName, options)
  {
    var key := OptionsKey(propertyName);
    var stored := StoredOptions(store.meta, target, key);
    var current := if stored.Some? then stored.value else Blank;
    current := Assign(current, options);
    ghost var merge := MergeOptions(old(store.meta), target, propertyName, options);
    assert current == Assign(stored.GetOr(Blank), options);
    if stored.Some? {
      // `Object.assign` wrote into the object the store already holds.
      store.meta := DefineMetadata(store.meta, target, key, Options(current));
    }
    if Incompatible(current) {
      assert merge.thrown == Some(IncompatibleAnnotations) && merge.meta == store.meta;
      return Some(IncompatibleAnnotations);
    }
    store.meta := DefineMetadata(store.meta, target, key, Options(current));
    if stored.Some? {
      DefineTwice(old(store.meta), target, key, Options(current), Options(current));
    }
    return None;
  }

  // ------------------------------------------------------------ property decorators

  /** The partial descriptor `@JsonProperty` merges, or the error for a type array whose length is not 1. */
  function JsonPropertyOptions(cls: string, classPropertyName: string, expectedType: TypeArg, jsonPropertyName: Option<string>)
    : Result<PartialOptions>
  {
    if expectedType.TypeArray? && |expectedType.elems| != 1 then Err(TypeArrayLength)
    else
      var isArray := expectedType.TypeArray?;
      var t := match expectedType
               case NoType => UndefinedType
               case Single(t) => t
               case TypeArray(ts) => ts[0];
      Ok(PartialOptions(
        className := Some(cls),
        classPropertyName := Some(classPropertyName),
        jsonPropertyName := Some(jsonPropertyName.GetOr(classPropertyName)),
        isArray := Some(isArray),
        expectedJsonType := Some(t)))
  }

  /** `@JsonProperty(expectedType?, jsonPropertyName?)` on property `classPropertyName` of class `cls`. */
  method JsonProperty(store: MetadataStore, cls: string, classPropertyName: string, expectedType: TypeArg, jsonPropertyName: Option<string>)
    returns (thrown: Option<Error>)
    modifies store
    ensures JsonPropertyOptions(cls, classPropertyName, expectedType, jsonPropertyName).Err? ==>
      thrown == Some(TypeArrayLength) && store.meta == old(store.meta)
    ensures JsonPropertyOptions(cls, classPropertyName, expectedType, jsonPropertyName).Ok? ==>
      Effect(store.meta, thrown) == MergeOptions(old(store.meta), Prototype(cls), classPropertyName,
                                                 JsonPropertyOptions(cls, classPropertyName, expectedType, jsonPropertyName).value)
  {
    var isArray := false;
    var t := UndefinedType;
    match expectedType {
      case NoType =>
      case Single(single) => t := single;
      case TypeArray(ts) =>
        if |ts| != 1 {
          return Some(TypeArrayLength);
        }
        isArray := true;
        t := ts[0];
    }
    var name := if jsonPropertyName.None? then classPropertyName else jsonPropertyName.value;
    var options := PartialOptions(
      className := Some(cls),
      classPropertyName := Some(classPropertyName),
      jsonPropertyName := Some(name),
      isArray := Some(isArray),
      expectedJsonType := Some(t));
    thrown := AddPropertyOptions(store, Prototype(cls), classPropertyName, options);
  }

  method Optional(store: MetadataStore, cls: string, classPropertyName: string) returns (thrown: Option<Error>)
    modifies store
    ensures Effect(store.meta, thrown) ==
      MergeOptions(old(store.meta), Prototype(cls), classPropertyName, PartialOptions(isOptional := Some(true)))
  {
    thrown := AddPropertyOptions(store, Prototype(cls), classPropertyName, PartialOptions(isOptional := Some(true)));
  }

  method NotNull(store: MetadataStore, cls: string, classPropertyName: string) returns (thrown: Option<Error>)
    modifies store
    ensures Effect(store.meta, thrown) ==
      MergeOptions(old(store.meta), Prototype(cls), classPropertyName, PartialOptions(notNull := Some(true)))
  {
    thrown := AddPropertyOptions(store, Prototype(cls), classPropertyName, PartialOptions(notNull := Some(true)));
  }

  method CustomConverter(store: MetadataStore, cls: string, classPropertyName: string, customMapper: ConverterRef)
    returns (thrown: Option<Error>)
    modifies store
    ensures Effect(store.meta, thrown) ==
      MergeOptions(old(store.meta), Prototype(cls), classPropertyName, PartialOptions(customMapper := Some(customMapper)))
  {
    thrown := AddPropertyOptions(store, Prototype(cls), classPropertyName, PartialOptions(customMapper := Some(customMapper)));
  }

  /** `@JsonConverter` marks a converter class; nothing in the engine reads the mark. */
  method JsonConverter(store: MetadataStore, converterClass: string)
    modifies store
    ensures store.meta == DefineMetadata(old(store.meta), Constructor(converterClass), CUSTOM_CONVERTER, Marker("__json_converter__"))
  {
    store.meta := DefineMetadata(store.meta, Constructor(converterClass), CUSTOM_CONVERTER, Marker("__json_converter__"));
  }

  // ------------------------------------------------------------ class decorators

  /** The descriptors stored on a prototype, with their keys, in key order. */
  function DescriptorEntries(t: Table): (r: seq<Entry<string, MappingOptions>>)
    ensures forall i :: 0 <= i < |r| ==> StartsWith(r[i].key, MAPPING_OPTIONS) && Entry(r[i].key, Options(r[i].val)) in t
  {
    if t == [] then []
    else if StartsWith(t[0].key, MAPPING_OPTIONS) && t[0].val.Options? then [Entry(t[0].key, t[0].val.options)] + DescriptorEntries(t[1..])
    else DescriptorEntries(t[1..])
  }

  /** A descriptor with the class-level `overrideInitValues`, when that is given. */
  function Override(o: MappingOptions, overrideInitValues: Option<bool>): MappingOptions {
    if overrideInitValues.Some? then o.(overrideInitValue := overrideInitValues.value) else o
  }

  /**
   * The `forEach` of `_JsonObject`: each descriptor is checked for a `className`,
   * takes the override (on the object the prototype shares) and is defined on the class.
   */
  function PushDown(meta: Metadata, cls: string, es: seq<Entry<string, MappingOptions>>, overrideInitValues: Option<bool>): Effect
    decreases |es|
  {
    if es == [] then Effect(meta, None)
    else if es[0].val.className == "" then Effect(meta, Some(ModifierWithoutJsonProperty))
    else
      var md := Override(es[0].val, overrideInitValues);
      var shared := if overrideInitValues.Some? then DefineMetadata(meta, Prototype(cls), es[0].key, Options(md)) else meta;
      PushDown(DefineMetadata(shared, Constructor(cls), es[0].key, Options(md)), cls, es[1..], overrideInitValues)
  }

  /** One turn of the push-down at position `i`, for the loop below. */
  lemma PushDownAt(meta: Metadata, cls: string, es: seq<Entry<string, MappingOptions>>, i: nat, overrideInitValues: Option<bool>)
    requires i < |es|
    ensures es[i].val.className == "" ==> PushDown(meta, cls, es[i..], overrideInitValues) == Effect(meta, Some(ModifierWithoutJsonProperty))
    ensures es[i].val.className != "" ==>
      var md := Override(es[i].val, overrideInitValues);
      var shared := if overrideInitValues.Some? then DefineMetadata(meta, Prototype(cls), es[i].key, Options(md)) else meta;
      PushDown(meta, cls, es[i..], overrideInitValues) == PushDown(DefineMetadata(shared, Constructor(cls), es[i].key, Options(md)), cls, es[i + 1..], overrideInitValues)
  {
    assert es[i..][0] == es[i] && es[i..][1..] == es[i + 1..];
  }

  /** `_JsonObject(options)(C)`: mark the class mapped first, then push its descriptors down. */
  function JsonObjectEffect(meta: Metadata, cls: string, options: ClassMappingOptions): Effect {
    var marked := DefineMetadata(meta, Constructor(cls), JSON_OBJECT, Marker("__json_object__"));
    PushDown(marked, cls, DescriptorEntries(TableOf(marked, Prototype(cls))), options.overrideInitValues)
  }

  method ApplyJsonObject(store: MetadataStore, cls: string, options: ClassMappingOptions) returns (thrown: Option<Error>)
    modifies store
    ensures Effect(store.meta, thrown) == JsonObjectEffect(old(store.meta), cls, options)
  {
    store.meta := DefineMetadata(store.meta, Constructor(cls), JSON_OBJECT, Marker("__json_object__"));
    var entries := DescriptorEntries(TableOf(store.meta, Prototype(cls)));
    ghost var marked := store.meta;
    var i := 0;
    while i < |entries|
      invariant 0 <= i <= |entries|
      invariant PushDown(marked, cls, entries, options.overrideInitValues) == PushDown(store.meta, cls, entries[i..], options.overrideInitValues)
    {
      PushDownAt(store.meta, cls, entries, i, options.overrideInitValues);
      var key := entries[i].key;
      var metadata := entries[i].val;
      if metadata.className == "" {
        return Some(ModifierWithoutJsonProperty);
      }
      if options.overrideInitValues.Some? {
        metadata := metadata.(overrideInitValue := options.overrideInitValues.value);
        store.meta := DefineMetadata(store.meta, Prototype(cls), key, Options(metadata));
      }
      store.meta := DefineMetadata(store.meta, Constructor(cls), key, Options(metadata));
      i := i + 1;
    }
    return None;
  }

  /**
   * `JsonObject(arg)`. A `null` or `undefined` argument fails the `in` test with a
   * TypeError. A class with an `overrideInitValues` static member is taken
   * for options and is not decorated; a literal without that key is taken for the
   * class, and reading its `prototype` then fails.
   */
  method JsonObject(store: MetadataStore, arg: JsonObjectArg) returns (r: Result<Decoration>)
    modifies store
    ensures arg.NullishArg? ==> r == Err(RuntimeTypeError) && store.meta == old(store.meta)
    ensures arg.OptionsArg? && IsInstanceOfClassMappingOptions(arg.options) ==>
      r == Ok(Factory(arg.options)) && store.meta == old(store.meta)
    ensures arg.OptionsArg? && !IsInstanceOfClassMappingOptions(arg.options) ==>
      r == Err(RuntimeTypeError) && store.meta == old(store.meta)
    ensures arg.ClassArg? && IsInstanceOfClassMappingOptions(arg.statics) ==>
      r == Ok(Factory(arg.statics)) && store.meta == old(store.meta)
    ensures arg.ClassArg? && !IsInstanceOfClassMappingOptions(arg.statics) ==>
      var e := JsonObjectEffect(old(store.meta), arg.cls, ClassMappingOptions(false, None));
      store.meta == e.meta && r == (if e.thrown.Some? then Err(e.thrown.value) else Ok(Applied))
  {
    match arg {
      case NullishArg =>
        // `'overrideInitValues' in arg` is a TypeError on `null` and `undefined`.
        return Err(RuntimeTypeError);
      case OptionsArg(o) =>
        if IsInstanceOfClassMappingOptions(o) {
          return Ok(Factory(o));
        }
        // `_JsonObject({})(arg)`: `arg.prototype` is undefined and reflect-metadata rejects it.
        return Err(RuntimeTypeError);
      case ClassArg(cls, statics) =>
        if IsInstanceOfClassMappingOptions(statics) {
          return Ok(Factory(statics));
        }
        var thrown := ApplyJsonObject(store, cls, ClassMappingOptions(false, None));
        if thrown.Some? {
          return Err(thrown.value);
        }
        return Ok(Applied);
    }
  }
}
