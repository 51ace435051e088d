# json-ts-mapper, modelled in Dafny

json-ts-mapper maps between plain JSON values and instances of TypeScript classes.
Decorators record a field descriptor (`MappingOptions`) for each mapped class property
in reflect-metadata. The class decorator `@JsonObject` then copies those descriptors
from the prototype to the class. `JsonTsMapperService` walks the descriptors to
deserialize a JSON object into a fresh class instance, or to serialize an instance
back into a JSON object. Along the way it applies the missing, null and type checks,
user converters and nested mapped classes.

The project models:

- the engine, `JsonTsMapperService`, in its current version
  (`src/lib/json-ts-mapper.service.ts`) and in the older snapshot
  (`projects/json-ts-mapper/src/lib/json-ts-mapper.service.ts`). Both are one set of
  functions parameterised by `Variant = Current | Legacy`, and they differ in three
  places:
  - the deserializer's null test;
  - how the converter object is obtained;
  - whether the initial field value is put back after an `undefined` result.
- the decorators of both versions, as methods on a `MetadataStore` object whose
  `meta` field is the reflect-metadata store. Each method is proved equal to a
  function that states its effect: `MergeOptions`, `JsonObjectEffect`,
  `LegacyDescriptor`, `CopyEntries`.
- the descriptor type and its merge by `Object.assign` (`src/lib/mapping-options.ts`).
- the alternative registry of `src/lib/metadata.ts`, as a `PropertyRegistry` class.

How JavaScript values are represented:

- JSON values and instances are one datatype `Values.Value`.
- Objects are ordered association lists (`Assoc`). Reading a missing key gives
  `undefined`, and a new key goes last. JavaScript also lists keys in insertion
  order, except integer-like keys, which come first in ascending order.
- Every JavaScript TypeError the code can raise is `Err(RuntimeTypeError)`:
  - a property read on `null` or `undefined`;
  - `Reflect.hasMetadata` on an `undefined` or `null` type;
  - `new` on something that is not a class.
- The engine's own `throw new Error(...)` sites each have their own `Errors.Error`
  constructor.
- User converters are parameters of the environment (`MapperService.Converters`):
  functions of the converter object, the value and the context.

The two loops of the service are written as loops (`MapperLoops`) and proved equal to
the folds `LoopProperties` and `SerializeInstance`. The properties are then proved
about those folds. Each field loop is also proved equal to a reference fold
(`FillFields`, `WriteJson`) over the values its descriptors resolve to. Each element
map is proved equal to `Errors.Collect` over the results for its elements.

The round trip `deserialize(serialize(x), C)` is proved by induction on the size of
`x`, for instances whose mapped properties are present or `null`, carry no converter
and have a declared type. Arrays and nested mapped models are included. What comes
back is a `new C()` of the same class. Its mapped properties give back the
original's: scalars equal, arrays element by element, nested instances recursively.
Its other properties are the initial ones.

## Model

| member | source | states |
|---|---|---|
| Errors.CollectPointwise | src/lib/json-ts-mapper.service.ts:140 | an `Array.prototype.map` whose callback may throw succeeds exactly when every call does, keeping length and order; otherwise it throws the first failing call's error |
| MappingOptionsModel.DefaultsOfNewMappingOptions | src/lib/mapping-options.ts:9-19 | `new MappingOptions(c, p, j)` keeps the three names and defaults to: not an array, type `Any`, not optional, not not-null, no converter, no override |
| MappingOptionsModel.Assign | src/lib/decorators.ts:95 | `Object.assign(_options, options)`: every field the partial supplies overwrites the stored one; stated by AssignLastWriterWins |
| MappingOptionsModel.Incompatible | src/lib/decorators.ts:97-99 | the merged descriptor is rejected exactly when it is optional and not-null at once; stated by IncompatibleWhicheverFirst and DecoratorProperties.MergeStores |
| MappingOptionsModel.IsInstanceOfClassMappingOptions | src/lib/mapping-options.ts:26-28 | `'overrideInitValues' in obj`: true when the key is present, even holding `undefined`; its use is stated by Decorators.JsonObject |
| MappingOptionsModel.AssignLastWriterWins | src/lib/decorators.ts:95 | `Object.assign` keeps what a partial descriptor leaves out and takes what it supplies; over two merges the later partial wins, for each of the nine descriptor fields; an empty partial changes nothing |
| MappingOptionsModel.IncompatibleWhicheverFirst | src/lib/decorators.ts:97-99 | merging optional then not-null, or not-null then optional, leaves the descriptor that the incompatibility check rejects |
| Reflection.DefineMetadata | src/lib/decorators.ts:101 | `Reflect.defineMetadata(key, v, t)` makes `getMetadata(key, t)` return `v` and leaves every other key of `t` and every other target unchanged |
| Reflection.DefineMetadataKeyOrder | src/lib/json-ts-mapper.service.ts:100-103 | `getMetadataKeys` lists a newly defined key last and keeps a redefined key in its old place |
| Reflection.DefineKeepsOther | src/lib/decorators.ts:41 | a definition changes no other pair of target and key |
| Reflection.DefineKeepsDistinct | src/lib/decorators.ts:41 | a definition keeps the keys of every target's metadata distinct |
| Reflection.DefineTwice | src/lib/decorators.ts:95-101 | defining a key again replaces the earlier value, so writing the merged object back twice equals writing it once |
| Reflection.MarkerUnprefixed | src/lib/decorators.ts:5-7 | the class marker key `jtsm_json_object` does not start with the descriptor prefix `jtsm_mapping_options` |
| Reflection.UnprefixedNotListed | src/lib/decorators.ts:29-32 | a key without the prefix is never among the entries that the `startsWith` filter keeps |
| Reflection.MappedOptions | src/lib/json-ts-mapper.service.ts:100-106 | the descriptors read off a class are at most as many as its metadata keys |
| Reflection.MappedOptionsFilter | src/lib/json-ts-mapper.service.ts:100-106 | a descriptor is among those the loop visits exactly when the class stores it under a key with the `jtsm_mapping_options` prefix |
| Values.Member | src/lib/json-ts-mapper.service.ts:110-112 | `obj[name]` fails with a TypeError exactly when `obj` is `null` or `undefined`, and otherwise gives a strictly smaller value |
| Values.Field | src/lib/json-ts-mapper.service.ts:107 | reading a class property gives the stored value, or `undefined` when the key is absent |
| Values.DropUndefined | src/lib/json-ts-mapper.service.ts:186-190 | the result keeps exactly the entries whose value is not `undefined` |
| Values.DropUndefinedReads | src/lib/json-ts-mapper.service.ts:186-190 | with distinct keys, every key still reads the same after the deletions, and a key remains exactly when its value was not `undefined` |
| TypeCheck.ScalarCases | src/lib/json-ts-mapper.service.ts:263-274 | `Any` and an omitted type accept everything; `String`, `Number` and `Boolean` accept exactly the matching `typeof`; any other type accepts exactly the values whose `typeof` is `object`, `null` and arrays included |
| TypeCheck.ArrayChecksFirstElementOnly | src/lib/json-ts-mapper.service.ts:251-261 | with the array flag, a non-array fails, an empty array passes, and otherwise only the first element is tested |
| TypeCheck.HeterogeneousArrayPasses | src/lib/json-ts-mapper.service.ts:251-261 | `["a", 1, true]` passes as a `String` array; `[1, "a"]` does not |
| TypeCheck.NullPassesAsObject | src/lib/json-ts-mapper.service.ts:272-273 | `null` satisfies every class type, but not `String`; `undefined` satisfies no class type |
| MapperService.MappedClass | src/lib/json-ts-mapper.service.ts:161 | `Reflect.hasMetadata(JSON_OBJECT, type)` throws exactly for an `undefined` or `null` type, and yields a class exactly when the type is a mapped class |
| MapperService.ResolveConverter | src/lib/json-ts-mapper.service.ts:158-160 | `Current` uses the converter as given exactly when it has the method; otherwise it is constructed, which fails exactly when it is not a class; `Legacy` always constructs (projects/json-ts-mapper/src/lib/json-ts-mapper.service.ts:144) |
| MapperService.Deserialize | src/lib/json-ts-mapper.service.ts:54-64 | a string is `TextInput` (parsing is not modelled), an array goes element by element to `deserializeObject`, anything else to `deserializeObject`; stated by ArrayFacades and RoundTrip |
| MapperService.DeserializeObject | src/lib/json-ts-mapper.service.ts:72-79 | a string is `TextInput`; anything else goes to `deserialize_loopProperties`; stated by RoundTripInstance and UnmappedIsRejected |
| MapperService.DeserializeArray | src/lib/json-ts-mapper.service.ts:87-94 | `list.map(deserializeObject)`, stopping at the first error; stated by DeserializeArrayPointwise |
| MapperService.LoopProperties | src/lib/json-ts-mapper.service.ts:96-123 | `NotMapped` for a class without the marker; otherwise the descriptor loop over a fresh `new C()`; stated by DeserializedInstance, LoopFieldsSucceeds and LoopFieldsSettles, and computed by MapperLoops.DeserializeLoopProperties |
| MapperService.FieldStep | src/lib/json-ts-mapper.service.ts:106-116 | one descriptor: resolve, assign, and in `Current` put the initial value back after an `undefined` result without override; stated by FieldStepEffect and FieldStepSettles |
| MapperService.NullPolicy | src/lib/json-ts-mapper.service.ts:126-134 | the missing and null tests shared by the four property functions (also lines 145-151, 199-207, 232-240); stated by DeserializeMissingOrNull and SerializeMissingOrNull |
| MapperService.DeserializePropertyArray | src/lib/json-ts-mapper.service.ts:125-141 | the null policy, the array type check, then the element map; stated by DeserializePropertyArrayShape and DeserializeElementsPointwise |
| MapperService.DeserializeProperty | src/lib/json-ts-mapper.service.ts:143-166 | the null policy, the type check, then a converter, a nested mapped class or the value itself; stated by DeserializeMissingOrNull and DeserializePresentValue |
| MapperService.Serialize | src/lib/json-ts-mapper.service.ts:28-34 | an array goes element by element to `serialize_loopProperties`, anything else directly; stated by ArrayFacades and SerializeEachPointwise |
| MapperService.SerializeInstance | src/lib/json-ts-mapper.service.ts:168-196 | a TypeError for null or undefined, `NotMapped` for an unmarked value, else the fill loop and the delete pass; stated by SerializedObject, SerializeFieldsSucceeds and UnmappedIsRejected, and computed by MapperLoops.SerializeLoopProperties |
| MapperService.SerializePropertyArray | src/lib/json-ts-mapper.service.ts:198-214 | the null policy, `Array.isArray`, then the element map; stated by SerializePropertyArrayShape and SerializeElementsPointwise |
| MapperService.SerializeProperty | src/lib/json-ts-mapper.service.ts:216-248 | produce the JSON value (converter, nested `serialize` or the value), then the null policy and the type check; stated by SerializeMissingOrNull, SerializePresentValue and SerializedValueChecked |
| TypeCheck.CheckType | src/lib/json-ts-mapper.service.ts:250-275 | the `typeof` test against the declared type, on the first element with the array flag; stated by ScalarCases and ArrayChecksFirstElementOnly |
| MapperProperties.JsonNames | src/lib/json-ts-mapper.service.ts:176-183 | one JSON name per descriptor, in order |
| MapperProperties.DeserializeMissingOrNull | src/lib/json-ts-mapper.service.ts:144-152 | a missing or null JSON value: "missing" when it is undefined and not optional; else "null and notNull", in `Current` whenever `notNull` is set and in `Legacy` only for null (projects/json-ts-mapper/src/lib/json-ts-mapper.service.ts:129-137); else the value itself; converters and classes play no part |
| MapperProperties.NullTestsAgreeOnCompatibleOptions | src/lib/json-ts-mapper.service.ts:147 | the two versions' null tests differ only on a descriptor that is both optional and not-null, which the decorators reject |
| MapperProperties.DeserializePresentValue | src/lib/json-ts-mapper.service.ts:154-165 | a present value: the type check first (its message reads the type's `name`, a TypeError for `null`); then the converter; else a nested mapped class is deserialized; else a TypeError for an undefined or null type; else the value passes through |
| MapperProperties.SerializeMissingOrNull | src/lib/json-ts-mapper.service.ts:216-240 | a missing or null class property: "missing" when undefined and not optional; "notNull" for null with `notNull`; else kept as it is, in both versions |
| MapperProperties.SerializePresentValue | src/lib/json-ts-mapper.service.ts:216-247 | a present class property goes through the converter, or a nested `serialize`, or stays itself; its JSON value then meets the null policy and the type check |
| MapperProperties.SerializedValueChecked | src/lib/json-ts-mapper.service.ts:242-247 | whatever a property serializes to is null, undefined, or passes the type check |
| MapperProperties.DeserializeElementsPointwise | src/lib/json-ts-mapper.service.ts:140 | `jsonValues.map(deserializeProperty)` succeeds exactly when every element does; it keeps length and order, and on failure reports the first failing element's error |
| MapperProperties.DeserializeElementsCollects | src/lib/json-ts-mapper.service.ts:140 | the element map is `Errors.Collect` over the results of `deserializeProperty` on each element, one per element and in order |
| MapperProperties.SerializeElementsPointwise | src/lib/json-ts-mapper.service.ts:213 | the same for `values.map(serializeProperty)` |
| MapperProperties.SerializeElementsCollects | src/lib/json-ts-mapper.service.ts:213 | the element map is `Errors.Collect` over the results of `serializeProperty` on each element, one per element and in order |
| MapperProperties.DeserializeArrayPointwise | src/lib/json-ts-mapper.service.ts:87-94 | the same for `deserializeArray` over the objects of a top-level array |
| MapperProperties.DeserializeArrayCollects | src/lib/json-ts-mapper.service.ts:93 | the element map is `Errors.Collect` over the results of `deserializeObject` on each element, one per element and in order |
| MapperProperties.SerializeEachPointwise | src/lib/json-ts-mapper.service.ts:28-34 | the same for `serialize` over the instances of a top-level array |
| MapperProperties.SerializeEachCollects | src/lib/json-ts-mapper.service.ts:28-34 | the element map is `Errors.Collect` over the results of `serialize_loopProperties` on each element, one per element and in order |
| MapperProperties.ArrayFacades | src/lib/json-ts-mapper.service.ts:28-34 | `deserialize` and `serialize` turn a top-level array into the array of the element results (deserialize also at 54-64) |
| MapperProperties.DeserializePropertyArrayShape | src/lib/json-ts-mapper.service.ts:125-141 | for an array property: the null policy on the whole value, then the array type check, then the element map |
| MapperProperties.SerializePropertyArrayShape | src/lib/json-ts-mapper.service.ts:198-214 | the null policy on the whole value, then `Array.isArray`, then the element map |
| MapperProperties.FieldStepEffect | src/lib/json-ts-mapper.service.ts:105-117 | one descriptor writes only its own class property, and fails exactly when its JSON value does not resolve; `Current` puts back the initial value when the result is undefined and no override is asked for |
| MapperProperties.LoopFieldsSucceeds | src/lib/json-ts-mapper.service.ts:105-117 | the deserialize loop succeeds exactly when every descriptor resolves, in both directions |
| MapperProperties.LoopFieldsRuns | src/lib/json-ts-mapper.service.ts:105-117 | when every descriptor resolves, the loop runs to the end without throwing |
| MapperProperties.FieldStepSettles | src/lib/json-ts-mapper.service.ts:106-116 | a completed step writes the settled value to its own class property: the resolved value, or the value read before the assignment when `Current` sees `undefined` and no override |
| MapperProperties.LoopFieldsFills | src/lib/json-ts-mapper.service.ts:105-117 | a completed deserialize loop equals the reference fold `FillFields` over the values its descriptors resolve to, one per descriptor and in order |
| MapperProperties.FillKeepsUnmapped | src/lib/json-ts-mapper.service.ts:105-117 | the reference fold leaves alone every class property that no descriptor names |
| MapperProperties.FillSettles | src/lib/json-ts-mapper.service.ts:105-117 | when no two descriptors name the same property, the reference fold leaves each one settled over the value it held before the loop |
| MapperProperties.FillSettlesStep | src/lib/json-ts-mapper.service.ts:105-117 | one step of the reference fold writes only the first descriptor's property, so a later descriptor's property keeps its value and that descriptor is the next one's of the rest |
| MapperProperties.LoopFieldsKeepsUnmapped | src/lib/json-ts-mapper.service.ts:98 | class properties that no descriptor names keep the value `new C()` gave them |
| MapperProperties.LoopFieldsSettles | src/lib/json-ts-mapper.service.ts:105-117 | when no two descriptors name the same property (`UniqueProperties`), each mapped property ends up with its resolved value; `Current` keeps the initial value in place of an `undefined` result unless the descriptor overrides it; `Legacy` never does (projects/json-ts-mapper/src/lib/json-ts-mapper.service.ts:95-104); a `null` result always stays |
| MapperProperties.SerializeFieldsSucceeds | src/lib/json-ts-mapper.service.ts:177-184 | the serialize loop succeeds exactly when every descriptor's property serializes, in both directions |
| MapperProperties.SerializeFieldsRuns | src/lib/json-ts-mapper.service.ts:177-184 | when every descriptor's property serializes, the loop runs to the end without throwing |
| MapperProperties.SerializeFieldsWritesJson | src/lib/json-ts-mapper.service.ts:177-184 | a completed serialize loop equals the reference fold `WriteJson` over the values the descriptors' properties serialize to, one per descriptor and in order |
| MapperProperties.WriteKeys | src/lib/json-ts-mapper.service.ts:177-184 | the keys the reference fold leaves are distinct, come from the starting object or the descriptors' JSON names, and include every JSON name |
| MapperProperties.SerializeFieldsKeys | src/lib/json-ts-mapper.service.ts:177-184 | the keys the serialize loop leaves are distinct, come from the starting object or the descriptors' JSON names, and include every JSON name |
| MapperProperties.WritePreservesKey | src/lib/json-ts-mapper.service.ts:177-184 | a key already present stays present through the rest of the reference fold |
| MapperProperties.SerializeFieldsWrites | src/lib/json-ts-mapper.service.ts:177-184 | when no two descriptors write the same JSON name (`UniqueJsonNames`), each name holds what its property serialized to |
| MapperProperties.WriteKeepsUnwritten | src/lib/json-ts-mapper.service.ts:177-184 | JSON names that no remaining descriptor writes keep their value through the reference fold |
| MapperProperties.WriteWrites | src/lib/json-ts-mapper.service.ts:177-184 | when no two descriptors write the same JSON name, the reference fold leaves each name holding its own descriptor's value |
| MapperProperties.UnmappedIsRejected | src/lib/json-ts-mapper.service.ts:120-122 | an unmapped class cannot be deserialized into; serializing `null` or `undefined` is a TypeError (`instance.constructor`, line 169); serializing an unmapped value throws (lines 193-195) |
| MapperProperties.DeserializedInstance | src/lib/json-ts-mapper.service.ts:96-123 | a deserialized object is an instance of the requested class; its properties that no descriptor names are those of `new C()`, and, when no two descriptors name the same property, its mapped properties settle as LoopFieldsSettles states |
| MapperProperties.SerializedObject | src/lib/json-ts-mapper.service.ts:168-196 | a serialized instance is a plain object with no `undefined` value whose keys are JSON names of its descriptors; when no two descriptors write the same JSON name, each name reads back what its property serialized to and is present exactly when that is not `undefined` |
| MapperProperties.ScalarPassesThrough | src/lib/json-ts-mapper.service.ts:216-248 | a present value of its declared scalar type, with no converter and no mapped class, serializes to itself and deserializes to itself (lines 143-166) |
| MapperProperties.NestedGoesThroughClass | src/lib/json-ts-mapper.service.ts:225-226 | an instance of the declared mapped class serializes through the nested `serialize`, and its JSON object deserializes through `deserialize` into that class (lines 161-162) |
| MapperProperties.JsonNameReadsBack | src/lib/json-ts-mapper.service.ts:177-184 | with distinct JSON names, reading a descriptor's JSON name from the serialized object gives what its property serialized to |
| MapperProperties.RoundTripValue | src/lib/json-ts-mapper.service.ts:143-166 | a portable value (present, no converter, of its declared type or an instance of its declared mapped class that is itself portable) serializes to a present JSON value of the declared type, which deserializes to a value giving it back (lines 216-248) |
| MapperProperties.RoundTripField | src/lib/json-ts-mapper.service.ts:125-141 | a portable array property comes back element by element with the same length, a `null` property without `notNull` comes back `null`, any other portable property as RoundTripValue states; the JSON value is never `undefined`, so its key is kept (lines 198-214) |
| MapperProperties.RoundTripFieldAt | src/lib/json-ts-mapper.service.ts:105-117 | each descriptor of a portable instance serializes, and its JSON name read back from the serialized object resolves to a value other than `undefined` giving the property back |
| MapperProperties.RoundTripInstance | src/lib/json-ts-mapper.service.ts:96-123 | a portable instance serializes to a plain object, and deserializing that object into its class gives an instance of the class whose mapped properties give back the original's, recursively, and whose other properties are those of `new C()` (lines 168-196) |
| MapperProperties.RoundTrip | src/lib/json-ts-mapper.service.ts:54-64 | `deserialize(serialize(x), C)` for a portable instance `x` of a mapped class `C` succeeds, in both versions, and gives back every mapped property: scalars equal, arrays element by element, nested models recursively (lines 28-34) |
| MapperLoops.DeserializeLoopProperties | src/lib/json-ts-mapper.service.ts:96-123 | the loop method computes exactly the fold `LoopProperties` |
| MapperLoops.AssignEach | src/lib/json-ts-mapper.service.ts:105-117 | the `forEach` over the descriptors computes the fold `LoopFields` |
| MapperLoops.AssignProperty | src/lib/json-ts-mapper.service.ts:106-116 | one pass of the `forEach` callback computes `FieldStep` |
| MapperLoops.LoopFieldsAt | src/lib/json-ts-mapper.service.ts:105 | one turn of the fold at position `i` |
| MapperLoops.SerializeLoopProperties | src/lib/json-ts-mapper.service.ts:168-196 | the fill loop followed by the delete pass computes exactly `SerializeInstance` |
| MapperLoops.DeleteUndefinedKeys | src/lib/json-ts-mapper.service.ts:186-190 | deleting each key whose value is `undefined`, while walking the keys, yields `DropUndefined` of the object |
| Decorators.MergeOptions | src/lib/decorators.ts:88-103 | the stored or a blank descriptor, overwritten by the partial and written back, with a throw for optional and not-null together; stated by DecoratorProperties.MergeStores and LastWriterWins, and computed by AddPropertyOptions |
| Decorators.JsonPropertyOptions | src/lib/decorators.ts:47-72 | the partial descriptor `@JsonProperty` merges, or a throw for a type array whose length is not 1; stated by DecoratorProperties.JsonPropertyUnwraps |
| Decorators.PushDown | src/lib/decorators.ts:33-42 | the `forEach` of the class decorator; stated by DecoratorProperties.PushDownThrows, PushDownKeepsOthers and PushDownCopies |
| Decorators.JsonObjectEffect | src/lib/decorators.ts:25-45 | mark the class, then push the prototype's descriptors down; stated by DecoratorProperties.JsonObjectMarksClass and JsonObjectPushesDown, and computed by ApplyJsonObject |
| Decorators.AddPropertyOptions | src/lib/decorators.ts:88-103 | the method's effect on the store and its throw are exactly `MergeOptions` |
| Decorators.JsonProperty | src/lib/decorators.ts:47-72 | a type array of length other than 1 throws and changes nothing; otherwise the effect is the merge of `JsonPropertyOptions` |
| Decorators.Optional | src/lib/decorators.ts:74-76 | the effect is the merge of `{ isOptional: true }` |
| Decorators.NotNull | src/lib/decorators.ts:78-80 | the effect is the merge of `{ notNull: true }` |
| Decorators.CustomConverter | src/lib/decorators.ts:82-86 | the effect is the merge of `{ customMapper }` |
| Decorators.JsonConverter | src/lib/decorators.ts:9-11 | marks the converter class with `jtsm_custom_converter` |
| Decorators.DescriptorEntries | src/lib/decorators.ts:29-32 | the kept entries carry the descriptor prefix and are stored on the prototype |
| Decorators.ApplyJsonObject | src/lib/decorators.ts:25-45 | the loop method's effect and throw are exactly `JsonObjectEffect`: mark the class, then push each descriptor down |
| Decorators.JsonObject | src/lib/decorators.ts:16-23 | a `null` or `undefined` argument is a TypeError at the `in` test (src/lib/mapping-options.ts:27) and changes nothing; an argument with an `overrideInitValues` key is taken for options and yields a decorator factory without touching the store; a class without one is decorated with empty options; an options literal without the key is taken for a class and fails with a TypeError |
| DecoratorProperties.OptionsKeyHasPrefix | src/lib/decorators.ts:101 | descriptor keys start with `jtsm_mapping_options` |
| DecoratorProperties.MergeStores | src/lib/decorators.ts:88-103 | a merge stores the stored descriptor, or a blank one, overwritten by the supplied fields; it throws exactly when that leaves optional and not-null both set; a rejected first merge stores nothing, while a rejected later merge has already changed the stored object; no other key changes |
| DecoratorProperties.LastWriterWins | src/lib/decorators.ts:95 | after two successful merges, the stored descriptor is the stored one overwritten by the first partial, then by the second |
| DecoratorProperties.OptionalAndNotNullClash | src/lib/decorators.ts:74-80 | `@Optional` and `@NotNull` on one property: the second of the two throws, whichever it is |
| DecoratorProperties.JsonPropertyUnwraps | src/lib/decorators.ts:47-72 | a type array must have exactly one element, which becomes the type with `isArray` set; an omitted type is stored as `undefined`; the JSON name defaults to the property's; no modifier is set |
| DecoratorProperties.PushDownThrows | src/lib/decorators.ts:34-37 | the push-down throws exactly when some descriptor never got a class name, that is, was never given `@JsonProperty` |
| DecoratorProperties.PushDownKeepsOthers | src/lib/decorators.ts:33-42 | keys the push-down does not visit keep their metadata on every target |
| DecoratorProperties.PushDownCopies | src/lib/decorators.ts:38-41 | a completed push-down leaves every descriptor on the class, with `overrideInitValue` replaced by the class-level value when one is given and untouched otherwise |
| DecoratorProperties.StoredIsListed | src/lib/decorators.ts:29-32 | a descriptor stored under a prefixed key is among the entries the filter keeps |
| DecoratorProperties.DescriptorEntriesDistinct | src/lib/decorators.ts:29-32 | when the prototype's keys are distinct, so are the keys of the entries the filter keeps |
| DecoratorProperties.JsonObjectPushesDown | src/lib/decorators.ts:25-45 | when the class decorator completes, every descriptor stored on the prototype under a prefixed key is on the class, with `overrideInitValue` replaced by the class-level `overrideInitValues` when that is given and untouched otherwise |
| DecoratorProperties.JsonObjectMarksClass | src/lib/decorators.ts:27 | the class is marked as mapped even when the push-down then throws |
| DecoratorProperties.ModifierWithoutJsonPropertyThrows | src/lib/decorators.ts:35-37 | `@Optional` (or another modifier) on a property never given `@JsonProperty` makes the class decorator throw |
| PropertyMetadata.PropertyRegistry.SetPropertyOptions | src/lib/metadata.ts:7-26 | appends the name to the class's list (repeats included); merges over the stored or a blank descriptor; throws on optional with not-null, after the append and after the write into an existing descriptor; keeps the registry valid |
| PropertyMetadata.PropertyRegistry.GetPropertyOptions | src/lib/metadata.ts:28-31 | the descriptor recorded for the class (or an instance's class), `undefined` when none; stated by NeverRegistered, ClassOrInstance and FunctionNamedClass |
| PropertyMetadata.PropertyRegistry.GetMappedProperties | src/lib/metadata.ts:33-36 | the recorded list of property names, or `[]`; stated by NeverRegistered, MappedIffListed and ClassOrInstance |
| PropertyMetadata.PropertyRegistry.IsMapped | src/lib/metadata.ts:38-41 | whether a list was recorded; stated by MappedIffListed and FunctionNamedClass |
| PropertyMetadata.NeverRegistered | src/lib/metadata.ts:28-41 | a class never registered has no mapped properties, no descriptors and is not mapped |
| PropertyMetadata.MappedIffListed | src/lib/metadata.ts:33-41 | a class is mapped exactly when its list of mapped properties is not empty |
| PropertyMetadata.ClassOrInstance | src/lib/metadata.ts:29 | for a class not named `Function`, the three getters give the same answer for the class and for its instances |
| PropertyMetadata.FunctionNamedClass | src/lib/metadata.ts:39 | an instance of a registered class named `Function` is not recognised as mapped, though the class is |
| LegacyDecorators.PrefixedEntries | projects/json-ts-mapper/src/lib/decorators.ts:19-22 | the legacy class decorators visit exactly the prototype's entries whose key carries the descriptor prefix |
| LegacyDecorators.JsonObject | projects/json-ts-mapper/src/lib/decorators.ts:16-27 | marks the class, then copies every prefixed prototype entry to the class; computes `JsonObjectEffect` |
| LegacyDecorators.JsonObjectOptions | projects/json-ts-mapper/src/lib/decorators.ts:29-46 | the same loop with its override branch; computes `JsonObjectOptionsEffect` |
| LegacyDecorators.LegacyDescriptor | projects/json-ts-mapper/src/lib/decorators.ts:48-77 | the descriptor built from the arguments and the recorded flags; stated by LegacyProperties.LegacyDescriptorConsistent and LateModifierIgnored |
| LegacyDecorators.JsonProperty | projects/json-ts-mapper/src/lib/decorators.ts:48-77 | a type array of length other than 1 throws and changes nothing; otherwise it defines `LegacyDescriptor` under the descriptor key, an omitted or `undefined` type becoming `null` |
| LegacyDecorators.CopyEntries | projects/json-ts-mapper/src/lib/decorators.ts:19-25 | the copy loop of `@JsonObject`; stated by LegacyProperties.CopyKeepsOthers and CopyDefines |
| LegacyDecorators.JsonObjectOptionsEffect | projects/json-ts-mapper/src/lib/decorators.ts:29-46 | mark the class, then copy each prefixed entry with the override branch; stated by LegacyProperties.JsonObjectOptionsIsJsonObject |
| LegacyDecorators.CopyEntriesWithOverride | projects/json-ts-mapper/src/lib/decorators.ts:33-43 | the copy loop of `@JsonObjectOptions`; stated by LegacyProperties.OverrideBranchIsDead |
| LegacyDecorators.Optional | projects/json-ts-mapper/src/lib/decorators.ts:79-84 | throws when the not-null flag is recorded, else records the optional flag |
| LegacyDecorators.NotNull | projects/json-ts-mapper/src/lib/decorators.ts:86-91 | throws when the optional flag is recorded, else records the not-null flag |
| LegacyDecorators.CustomConverter | projects/json-ts-mapper/src/lib/decorators.ts:93-97 | records the converter under the mapper key |
| LegacyProperties.KeyFamiliesDiffer | projects/json-ts-mapper/src/lib/decorators.ts:5-10 | no flag key starts with the descriptor prefix, a property's optional and not-null keys differ, and no descriptor key starts with the mapper prefix |
| LegacyProperties.LegacyDescriptorConsistent | projects/json-ts-mapper/src/lib/decorators.ts:52-75 | `@JsonProperty` throws exactly for a type array of length other than one; otherwise its descriptor is never optional and not-null at once, is optional only when the flag was recorded, is not-null exactly when that flag was recorded, is an array descriptor exactly for a type array, has the given JSON name or the property's, and holds `null` for an omitted or `undefined` type, whose parameter default applies (projects/json-ts-mapper/src/lib/mapping-options.ts:9), and the given type otherwise |
| LegacyProperties.ModifierFlagsExclusive | projects/json-ts-mapper/src/lib/decorators.ts:79-91 | recording one modifier flag never records the other, so the later of `@Optional` and `@NotNull` sees the earlier and throws |
| LegacyProperties.LateModifierIgnored | projects/json-ts-mapper/src/lib/decorators.ts:64-75 | a modifier applied after `@JsonProperty` leaves the stored descriptor as it was |
| LegacyProperties.OverrideBranchIsDead | projects/json-ts-mapper/src/lib/decorators.ts:39 | on the prefixed keys it visits, the override branch of `@JsonObjectOptions` never fires |
| LegacyProperties.JsonObjectOptionsIsJsonObject | projects/json-ts-mapper/src/lib/decorators.ts:29-46 | `@JsonObjectOptions(options)` has exactly the effect of `@JsonObject`, whatever the options |
| LegacyProperties.CopyKeepsOthers | projects/json-ts-mapper/src/lib/decorators.ts:22-25 | keys the copy loop does not visit keep their metadata |
| LegacyProperties.CopyDefines | projects/json-ts-mapper/src/lib/decorators.ts:22-25 | every visited entry ends up on the class with the prototype's value |
| LegacyProperties.JsonObjectMarksAndSkipsFlags | projects/json-ts-mapper/src/lib/decorators.ts:16-27 | `@JsonObject` marks the class and does not copy the modifier flags to it |

## Left out

- `JSON.parse`, `JSON.stringify` and `serializeToString` are not modelled. A string handed to `deserialize` or `deserializeObject` is the error `TextInput`, and the functions work on parsed values.
- Prototype chains and inheritance are not modelled. Metadata is read from the target itself, so descriptors inherited from a base class are not modelled. Property reads see own properties only: a name that `Object.prototype` carries, such as `constructor`, `toString` or `hasOwnProperty`, reads as `undefined` when the object lacks it, where the source reads the inherited function (so a missing JSON name `constructor` on a String property is `MissingProperty` here and a type mismatch in the source).
- The key order of an object with integer-like keys (`"0"`, `"42"`) is not modelled: such keys keep insertion order here, where JavaScript lists them first, in ascending order. No contract depends on key order; only the enumeration order of the objects the engine builds differs.
- JavaScript numbers are integers here; floating point and `NaN` are not modelled. Reading `obj[name]` on a string or an array gives `undefined` for every name: the built-in properties (such as `length`) and the index keys of an array (such as `"0"`), which the source would read as elements, are not modelled.
- Aliasing between instances, and cyclic instances, are not modelled: values are trees, so a serializer that would loop forever on a cycle has no counterpart.
- Class decorators' return value and the TypeScript type parameters are not modelled.
- Two classes with the same name are one class here: classes are identified by name.
- `src/lib/json-converter.ts` and `src/lib/date-converters.ts` are not part of this model: what a converter computes is a parameter of the engine.
- Nested type arrays (`[[String]]`) are not modelled: a type array holds types.
- Metadata values under descriptor keys that are not descriptors are skipped by the model's filter; the source would read them as descriptors.
- Decorators.ApplyJsonObject: the descriptors are read once before the loop; the source re-reads each key inside the loop, which gives the same value because every key is visited once.
- Decorators.JsonProperty, LegacyDecorators.JsonProperty: each application is taken to come from its own `JsonProperty(...)` call. The source's decorator function reassigns the captured `expectedType` and `jsonPropertyName` (src/lib/decorators.ts:57,61; projects/json-ts-mapper/src/lib/decorators.ts:58,62), so one decorator value applied to two properties would give the second the first's unwrapped type and JSON name; that sharing is not modelled.
- MapperProperties.RoundTrip: covers instances whose mapped properties are present or `null`, carry no converter and have a declared type. A converter's round trip depends on the user's code. A missing optional property does not come back: `Current` puts back the initial value of `new C()` in its place. A `null` array element is left out because only the first element is type-checked on the way back, and `[null, "a"]` fails as a `String` array. An untyped property throws in both versions as soon as it holds a value, because its stored type is `undefined` or `null` and `Reflect.hasMetadata(JSON_OBJECT, type)` throws on those (MapperProperties.DeserializePresentValue).
- Decorators.JsonObject: for an options literal without `overrideInitValues`, the model reports the TypeError and leaves the store unchanged; it does not track the literal object itself.
- The older snapshot's `JsonConverter` (projects/json-ts-mapper/src/lib/decorators.ts:12-14) is the same as the current one and is modelled once, as Decorators.JsonConverter.
- LegacyDecorators.LegacyDescriptor: the older `@JsonProperty` copies whatever is stored under the mapper key; the model takes only a converter stored there, which `@CustomConverter` is the only writer of.
- The deserialized instance is a value (`Inst(cls, fields)`) that the loop rebuilds; the source mutates one fresh object in place. No other code holds that object during the loop, so the two agree.
- PropertyMetadata.PropertyRegistry keeps the two reflect-metadata keys of `src/lib/metadata.ts` as two fields of one object. Its object identity is not modelled: `Object.assign` into a stored descriptor is modelled as replacing it.
- MapperService.NewInstance: `new C()` is taken to succeed and to give the same own fields on every call (`Registry.defaults`). A constructor that throws, or that has effects or gives different fields on each call (`Math.random()`, `new Date()`), is not modelled; LoopFieldsSucceeds and RoundTrip hold under that assumption.
- The `context` argument of the service is passed through to converters unchanged and is otherwise not modelled.
