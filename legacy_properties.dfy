/** What the older snapshot's decorators promise about the store they leave. */
module LegacyProperties {
  import opened Errors
  import opened Assoc
  import opened MappingOptionsModel
  import opened Reflection
  import opened LegacyDecorators
  import D = Decorators

  /** The key families differ: no flag key starts with MAPPING_OPTIONS, the flag keys of one property differ, and no descriptor key starts with MAPPING_OPTIONS_MAPPER. */
  lemma KeyFamiliesDiffer(p: string, k: string)
    ensures !StartsWith(FlagKey(MAPPING_OPTIONS_OPTIONAL, p), MAPPING_OPTIONS)
    ensures !StartsWith(FlagKey(MAPPING_OPTIONS_NOTNULL, p), MAPPING_OPTIONS)
    ensures !StartsWith(FlagKey(MAPPING_OPTIONS_MAPPER, p), MAPPING_OPTIONS)
    ensures FlagKey(MAPPING_OPTIONS_OPTIONAL, p) != FlagKey(MAPPING_OPTIONS_NOTNULL, p)
    ensures StartsWith(k, MAPPING_OPTIONS) ==> !StartsWith(k, MAPPING_OPTIONS_MAPPER)
  {
    assert FlagKey(MAPPING_OPTIONS_OPTIONAL, p)[19] != MAPPING_OPTIONS[19];
    assert FlagKey(MAPPING_OPTIONS_NOTNULL, p)[13] != MAPPING_OPTIONS[13];
    assert FlagKey(MAPPING_OPTIONS_MAPPER, p)[13] != MAPPING_OPTIONS[13];
    assert FlagKey(MAPPING_OPTIONS_OPTIONAL, p)[13] != FlagKey(MAPPING_OPTIONS_NOTNULL, p)[13];
  }

  /**
   * `@JsonProperty` throws exactly on a type array whose length is not one, and
   * otherwise defines a descriptor that is never optional and not-null at once, is an
   * array descriptor exactly for a type array, and is found under the JSON name given
   * or else the property's own.
   */
  lemma LegacyDescriptorConsistent(meta: Metadata, cls: string, p: string, jsonPropertyName: Option<string>, expectedType: D.TypeArg)
    ensures var r := LegacyDescriptor(meta, cls, p, jsonPropertyName, expectedType);
      && (r.Err? <==> expectedType.TypeArray? && |expectedType.elems| != 1)
      && (r.Err? ==> r.error == TypeArrayLength)
      && (r.Ok? ==>
            && !Incompatible(r.value)
            && r.value.isArray == expectedType.TypeArray?
            && (r.value.isOptional ==> HasMetadata(meta, Prototype(cls), FlagKey(MAPPING_OPTIONS_OPTIONAL, p)))
            && (r.value.notNull <==> HasMetadata(meta, Prototype(cls), FlagKey(MAPPING_OPTIONS_NOTNULL, p)))
            && r.value.jsonPropertyName == (if jsonPropertyName.Some? then jsonPropertyName.value else p)
            && (expectedType.NoType? ==> r.value.expectedJsonType == NullType)
            && r.value.expectedJsonType != UndefinedType
            && (expectedType.Single? ==>
                  r.value.expectedJsonType == if expectedType.t.UndefinedType? then NullType else expectedType.t)
            && (expectedType.TypeArray? ==>
                  r.value.expectedJsonType == if expectedType.elems[0].UndefinedType? then NullType else expectedType.elems[0])
            && !r.value.overrideInitValue)
  {
  }

  /** Recording `@Optional` never records `@NotNull`, so a later `@NotNull` sees it and throws, and the reverse. */
  lemma ModifierFlagsExclusive(meta: Metadata, cls: string, p: string)
    ensures HasMetadata(DefineMetadata(meta, Prototype(cls), FlagKey(MAPPING_OPTIONS_OPTIONAL, p), Flag(true)),
                        Prototype(cls), FlagKey(MAPPING_OPTIONS_NOTNULL, p))
         == HasMetadata(meta, Prototype(cls), FlagKey(MAPPING_OPTIONS_NOTNULL, p))
    ensures HasMetadata(DefineMetadata(meta, Prototype(cls), FlagKey(MAPPING_OPTIONS_NOTNULL, p), Flag(true)),
                        Prototype(cls), FlagKey(MAPPING_OPTIONS_OPTIONAL, p))
         == HasMetadata(meta, Prototype(cls), FlagKey(MAPPING_OPTIONS_OPTIONAL, p))
  {
    KeyFamiliesDiffer(p, "");
  }

  /** A modifier applied after `@JsonProperty` leaves its descriptor as it was. */
  lemma LateModifierIgnored(meta: Metadata, cls: string, p: string, prefix: string, v: MetaValue)
    requires prefix == MAPPING_OPTIONS_OPTIONAL || prefix == MAPPING_OPTIONS_NOTNULL || prefix == MAPPING_OPTIONS_MAPPER
    ensures GetMetadata(DefineMetadata(meta, Prototype(cls), FlagKey(prefix, p), v), Prototype(cls), OptionsKey(p))
         == GetMetadata(meta, Prototype(cls), OptionsKey(p))
  {
    KeyFamiliesDiffer(p, "");
    assert StartsWith(OptionsKey(p), MAPPING_OPTIONS);
  }

  /** The override branch of `@JsonObjectOptions` never fires on the keys it visits. */
  lemma {:induction false} OverrideBranchIsDead(meta: Metadata, cls: string, es: Table, options: ClassMappingOptions)
    requires forall i :: 0 <= i < |es| ==> StartsWith(es[i].key, MAPPING_OPTIONS)
    decreases |es|
    ensures CopyEntriesWithOverride(meta, cls, es, options) == CopyEntries(meta, cls, es)
  {
    if es != [] {
      KeyFamiliesDiffer("", es[0].key);
      OverrideBranchIsDead(DefineMetadata(meta, Constructor(cls), es[0].key, es[0].val), cls, es[1..], options);
    }
  }

  /** Hence `@JsonObjectOptions(options)` does exactly what `@JsonObject` does, whatever the options. */
  lemma JsonObjectOptionsIsJsonObject(meta: Metadata, cls: string, options: ClassMappingOptions)
    ensures JsonObjectOptionsEffect(meta, cls, options) == JsonObjectEffect(meta, cls)
  {
    var marked := DefineMetadata(meta, Constructor(cls), JSON_OBJECT, Marker("__json_object__"));
    OverrideBranchIsDead(marked, cls, PrefixedEntries(TableOf(marked, Prototype(cls))), options);
  }

  /** Keys the copy loop does not visit keep their metadata. */
  lemma {:induction false} CopyKeepsOthers(meta: Metadata, cls: string, es: Table, t: Target, k: string)
    requires k !in Keys(es)
    decreases |es|
    ensures GetMetadata(CopyEntries(meta, cls, es), t, k) == GetMetadata(meta, t, k)
  {
    if es != [] {
      assert Keys(es) == [es[0].key] + Keys(es[1..]);
      CopyKeepsOthers(DefineMetadata(meta, Constructor(cls), es[0].key, es[0].val), cls, es[1..], t, k);
      DefineKeepsOther(meta, Constructor(cls), es[0].key, es[0].val, t, k);
    }
  }

  /** Every visited entry ends up on the class with the prototype's value. */
  lemma {:induction false} CopyDefines(meta: Metadata, cls: string, es: Table, i: nat)
    requires Distinct(Keys(es)) && i < |es|
    decreases |es|
    ensures GetMetadata(CopyEntries(meta, cls, es), Constructor(cls), es[i].key) == Some(es[i].val)
  {
    var next := DefineMetadata(meta, Constructor(cls), es[0].key, es[0].val);
    assert CopyEntries(meta, cls, es) == CopyEntries(next, cls, es[1..]);
    if i == 0 {
      DistinctKeysTail(es);
      CopyKeepsOthers(next, cls, es[1..], Constructor(cls), es[0].key);
    } else {
      assert Distinct(Keys(es[1..])) && es[1..][i - 1] == es[i] by {
        DistinctKeysTail(es);
        TailAt(es, i);
      }
      CopyDefines(next, cls, es[1..], i - 1);
    }
  }

  /**
   * `@JsonObject` marks the class and leaves the modifier flags where they were: on
   * the prototype only, never on the class (unless they were there before).
   */
  lemma JsonObjectMarksAndSkipsFlags(meta: Metadata, cls: string, p: string, prefix: string)
    requires prefix == MAPPING_OPTIONS_OPTIONAL || prefix == MAPPING_OPTIONS_NOTNULL || prefix == MAPPING_OPTIONS_MAPPER
    ensures HasMetadata(JsonObjectEffect(meta, cls), Constructor(cls), JSON_OBJECT)
    ensures GetMetadata(JsonObjectEffect(meta, cls), Constructor(cls), FlagKey(prefix, p)) == GetMetadata(meta, Constructor(cls), FlagKey(prefix, p))
  {
    var marked := DefineMetadata(meta, Constructor(cls), JSON_OBJECT, Marker("__json_object__"));
    var es := PrefixedEntries(TableOf(marked, Prototype(cls)));
    KeyFamiliesDiffer(p, "");
    MarkerUnprefixed();
    UnprefixedNotListed(es, MAPPING_OPTIONS, JSON_OBJECT);
    UnprefixedNotListed(es, MAPPING_OPTIONS, FlagKey(prefix, p));
    CopyKeepsOthers(marked, cls, es, Constructor(cls), JSON_OBJECT);
    CopyKeepsOthers(marked, cls, es, Constructor(cls), FlagKey(prefix, p));
    assert FlagKey(prefix, p) != JSON_OBJECT;
  }
}
