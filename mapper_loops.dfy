/**
 * The two `_loopProperties` methods of `JsonTsMapperService` as the step-by-step
 * loops they are, each proved to compute its fold in MapperService.
 */
module MapperLoops {
  import opened Errors
  import opened Assoc
  import opened Values
  import opened MappingOptionsModel
  import opened MapperService

  /** `deserialize_loopProperties`: a fresh instance, then each mapped field assigned in descriptor order. */
  method DeserializeLoopProperties(env: Env, obj: Value, clazz: string) returns (r: Result<Value>)
    ensures r == LoopProperties(env, obj, clazz)
  {
    if !IsMapped(env.reg, clazz) {
      return Err(NotMapped);
    }
    var instance := NewInstance(env.reg, clazz);
    var filled := AssignEach(env, obj, Descriptors(env.reg, clazz), instance);
    if filled.Err? {
      return Err(filled.error);
    }
    return Ok(Inst(clazz, filled.value));
  }

  /** The `forEach` over the descriptors, updating the instance's fields in order. */
  method AssignEach(env: Env, obj: Value, descriptors: seq<MappingOptions>, initial: Props) returns (r: Result<Props>)
    ensures r == LoopFields(env, obj, descriptors, initial)
  {
    var instance := initial;
    var i := 0;
    while i < |descriptors|
      invariant 0 <= i <= |descriptors|
      invariant LoopFields(env, obj, descriptors, initial) == LoopFields(env, obj, descriptors[i..], instance)
    {
      var options := descriptors[i];
      LoopFieldsAt(env, obj, descriptors, i, instance);
      var assignedFields := AssignProperty(env, obj, options, instance);
      if assignedFields.Err? {
        return Err(assignedFields.error);
      }
      instance := assignedFields.value;
      i := i + 1;
    }
    return Ok(instance);
  }

  /** The `forEach` callback: reads the initial value, assigns the resolved one, and may put the initial value back. */
  method AssignProperty(env: Env, obj: Value, options: MappingOptions, instance: Props) returns (r: Result<Props>)
    ensures r == FieldStep(env, obj, options, instance)
  {
    var instanceInitValue := Field(instance, options.classPropertyName);
    var resolved := ResolveField(env, obj, options);
    if resolved.Err? {
      return Err(resolved.error);
    }
    var written := Put(instance, options.classPropertyName, resolved.value);
    assert Field(written, options.classPropertyName) == resolved.value;
    if Field(written, options.classPropertyName).Undefined? && env.variant == Current && !options.overrideInitValue {
      written := Put(written, options.classPropertyName, instanceInitValue);
    }
    return Ok(written);
  }

  /** One turn of the deserialize fold, at position `i`, for the loop above. */
  lemma LoopFieldsAt(env: Env, obj: Value, ds: seq<MappingOptions>, i: nat, fields: Props)
    requires i < |ds|
    ensures LoopFields(env, obj, ds[i..], fields) ==
      match FieldStep(env, obj, ds[i], fields)
      case Err(e) => Err(e)
      case Ok(next) => LoopFields(env, obj, ds[i + 1..], next)
  {
    assert ds[i..][0] == ds[i] && ds[i..][1..] == ds[i + 1..];
  }

  /**
   * `serialize_loopProperties`: fills `json` one descriptor at a time, then walks its
   * keys and deletes those whose value is `undefined`.
   */
  method SerializeLoopProperties(env: Env, instance: Value) returns (r: Result<Value>)
    ensures r == SerializeInstance(env, instance)
  {
    if Nullish(instance) {
      return Err(RuntimeTypeError);
    }
    if !instance.Inst? || !IsMapped(env.reg, instance.cls) {
      return Err(NotMapped);
    }
    var descriptors := Descriptors(env.reg, instance.cls);
    var json: Props := [];
    var i := 0;
    while i < |descriptors|
      invariant 0 <= i <= |descriptors|
      invariant Distinct(Keys(json))
      invariant SerializeFields(env, instance, descriptors, []) == SerializeFields(env, instance, descriptors[i..], json)
    {
      var options := descriptors[i];
      assert descriptors[i..][0] == options && descriptors[i..][1..] == descriptors[i + 1..];
      var produced := SerializeField(env, instance, options);
      if produced.Err? {
        return Err(produced.error);
      }
      PutKeepsDistinct(json, options.jsonPropertyName, produced.value);
      json := Put(json, options.jsonPropertyName, produced.value);
      i := i + 1;
    }
    var out := DeleteUndefinedKeys(json);
    return Ok(Obj(out));
  }

  /** The `for (let key in json) if (json[key] === undefined) delete json[key]` pass. */
  method DeleteUndefinedKeys(json: Props) returns (out: Props)
    requires Distinct(Keys(json))
    ensures out == DropUndefined(json)
  {
    var keys := Keys(json);
    out := json;
    var j := 0;
    DropAmongNoKeys(json);
    while j < |keys|
      invariant 0 <= j <= |keys|
      invariant out == DropUndefinedAmong(json, keys[..j])
    {
      var key := keys[j];
      assert keys[..j + 1] == keys[..j] + [key];
      assert key !in keys[..j];
      DropAmongOneMore(json, keys[..j], key);
      if Field(out, key).Undefined? {
        out := Remove(out, key);
      }
      j := j + 1;
    }
    assert keys[..|keys|] == keys;
    DropAmongCoveringKeys(json, keys);
  }
}
