/**
 * The reflect-metadata store that the decorators write and the mapper reads:
 * per target (a class's prototype, or the class itself) an ordered table of
 * metadata keys. Prototype-chain lookup is not part of this model.
 */
module Reflection {
  import opened Errors
  import opened Assoc
  import opened MappingOptionsModel

  datatype Target = Prototype(cls: string) | Constructor(cls: string)

  datatype MetaValue =
    | Marker(tag: string)            // '__json_object__', '__json_converter__'
    | Options(options: MappingOptions)
    | Flag(flag: bool)
    | Mapper(converter: ConverterRef)

  type Table = seq<Entry<string, MetaValue>>
  type Metadata = map<Target, Table>

  const JSON_OBJECT := "jtsm_json_object"
  const CUSTOM_CONVERTER := "jtsm_custom_converter"
  const MAPPING_OPTIONS := "jtsm_mapping_options"

  /** `${MAPPING_OPTIONS}-${propertyName}`. */
  function OptionsKey(propertyName: string): string {
    MAPPING_OPTIONS + "-" + propertyName
  }

  /** `s.startsWith(prefix)`. */
  predicate StartsWith(s: string, prefix: string) {
    prefix <= s
  }

  function TableOf(m: Metadata, t: Target): Table {
    if t in m then m[t] else []
  }

  function GetMetadata(m: Metadata, t: Target, key: string): Option<MetaValue> {
    Get(TableOf(m, t), key)
  }

  predicate HasMetadata(m: Metadata, t: Target, key: string) {
    GetMetadata(m, t, key).Some?
  }

  function GetMetadataKeys(m: Metadata, t: Target): seq<string> {
    Keys(TableOf(m, t))
  }

  /** `Reflect.defineMetadata(key, v, t)`: only the table of `t` changes. */
  function DefineMetadata(m: Metadata, t: Target, key: string, v: MetaValue): (r: Metadata)
    ensures GetMetadata(r, t, key) == Some(v)
    ensures forall k :: k != key ==> GetMetadata(r, t, k) == GetMetadata(m, t, k)
    ensures forall t' :: t' != t ==> TableOf(r, t') == TableOf(m, t')
  {
    m[t := Put(TableOf(m, t), key, v)]
  }

  /** A new key is enumerated last; redefining a key keeps its place. */
  lemma DefineMetadataKeyOrder(m: Metadata, t: Target, key: string, v: MetaValue)
    ensures GetMetadataKeys(DefineMetadata(m, t, key, v), t) ==
      if key in GetMetadataKeys(m, t) then GetMetadataKeys(m, t) else GetMetadataKeys(m, t) + [key]
  {
  }

  /** A definition leaves every other (target, key) pair as it was. */
  lemma DefineKeepsOther(m: Metadata, t: Target, key: string, v: MetaValue, t': Target, k: string)
    requires t' != t || k != key
    ensures GetMetadata(DefineMetadata(m, t, key, v), t', k) == GetMetadata(m, t', k)
  {
    if t' != t {
      assert TableOf(DefineMetadata(m, t, key, v), t') == TableOf(m, t');
    }
  }

  /** Definitions keep every table free of repeated keys, so any store built by them has distinct keys. */
  lemma DefineKeepsDistinct(m: Metadata, t: Target, key: string, v: MetaValue, t': Target)
    requires Distinct(Keys(TableOf(m, t')))
    ensures Distinct(Keys(TableOf(DefineMetadata(m, t, key, v), t')))
  {
    if t' == t {
      PutKeepsDistinct(TableOf(m, t), key, v);
    }
  }

  /** Defining a key twice is defining it once with the later value. */
  lemma DefineTwice(m: Metadata, t: Target, key: string, v1: MetaValue, v2: MetaValue)
    ensures DefineMetadata(DefineMetadata(m, t, key, v1), t, key, v2) == DefineMetadata(m, t, key, v2)
  {
    var m1 := DefineMetadata(m, t, key, v1);
    assert TableOf(m1, t) == Put(TableOf(m, t), key, v1);
    PutPut(TableOf(m, t), key, v1, v2);
    assert m1[t := Put(TableOf(m1, t), key, v2)] == m[t := Put(TableOf(m, t), key, v2)];
  }

  /** The class marker is not a descriptor key. */
  lemma MarkerUnprefixed()
    ensures !StartsWith(JSON_OBJECT, MAPPING_OPTIONS)
  {
    assert JSON_OBJECT[5] != MAPPING_OPTIONS[5];
  }

  /** A key without a given prefix is not among entries that all carry it. */
  lemma UnprefixedNotListed<V>(es: seq<Entry<string, V>>, prefix: string, k: string)
    requires forall i :: 0 <= i < |es| ==> StartsWith(es[i].key, prefix)
    requires !StartsWith(k, prefix)
    ensures k !in Keys(es)
  {
    forall i | 0 <= i < |es| ensures Keys(es)[i] != k {
      assert StartsWith(es[i].key, prefix);
    }
  }

  /**
   * The field descriptors recorded on a target: the values under keys that start
   * with MAPPING_OPTIONS, in key order.
   */
  function MappedOptions(t: Table): (r: seq<MappingOptions>)
    ensures |r| <= |t|
  {
    if t == [] then []
    else if StartsWith(t[0].key, MAPPING_OPTIONS) && t[0].val.Options? then [t[0].val.options] + MappedOptions(t[1..])
    else MappedOptions(t[1..])
  }

  /** A descriptor is read off a table exactly when it is stored there under a prefixed key. */
  lemma {:induction false} MappedOptionsFilter(t: Table, o: MappingOptions)
    ensures o in MappedOptions(t) <==> exists k :: Entry(k, Options(o)) in t && StartsWith(k, MAPPING_OPTIONS)
  {
    if t != [] {
      MappedOptionsFilter(t[1..], o);
      assert t == [t[0]] + t[1..];
      if StartsWith(t[0].key, MAPPING_OPTIONS) && t[0].val == Options(o) {
        assert Entry(t[0].key, Options(o)) in t;
      }
    }
  }

  /** The process-wide metadata registry; every decorator writes it. */
  class MetadataStore {
    var meta: Metadata

    constructor ()
      ensures meta == map[]
    {
      meta := map[];
    }
  }
}
