/** What the engine promises, stated over the functions of MapperService. */
module MapperProperties {
  import opened Errors
  import opened Assoc
  import opened Values
  import opened MappingOptionsModel
  import opened TypeCheck
  import opened MapperService

  /** No two descriptors name the same class property. */
  predicate UniqueProperties(ds: seq<MappingOptions>) {
    forall i, j :: 0 <= i < j < |ds| ==> ds[i].classPropertyName != ds[j].classPropertyName
  }

  /** No two descriptors name the same JSON property. */
  predicate UniqueJsonNames(ds: seq<MappingOptions>) {
    forall i, j :: 0 <= i < j < |ds| ==> ds[i].jsonPropertyName != ds[j].jsonPropertyName
  }

  /** No descriptor names class property `k`. */
  predicate Unmapped(ds: seq<MappingOptions>, k: string) {
    forall i :: 0 <= i < |ds| ==> ds[i].classPropertyName != k
  }

  /** No descriptor writes JSON property `k`. */
  predicate Unwritten(ds: seq<MappingOptions>, k: string) {
    forall i :: 0 <= i < |ds| ==> ds[i].jsonPropertyName != k
  }

  function JsonNames(ds: seq<MappingOptions>): (r: seq<string>)
    ensures |r| == |ds| && forall i :: 0 <= i < |ds| ==> r[i] == ds[i].jsonPropertyName
  {
    if ds == [] then [] else [ds[0].jsonPropertyName] + JsonNames(ds[1..])
  }

  // ------------------------------------------------------------ one property

  /**
   * A missing or null JSON value: "missing" when undefined and not optional, else
   * "notNull" (`Current`: whenever `notNull`; `Legacy`: only for null), else the
   * value itself; no type check, converter or registry lookup is involved.
   */
  lemma DeserializeMissingOrNull(env: Env, env': Env, v: Value, d: MappingOptions)
    requires Nullish(v) && env'.variant == env.variant
    ensures v.Undefined? && !d.isOptional ==> DeserializeProperty(env, v, d) == Err(MissingProperty)
    ensures !(v.Undefined? && !d.isOptional) && d.notNull && (v.Null? || env.variant == Current) ==>
      DeserializeProperty(env, v, d) == Err(NotNullViolation)
    ensures !(v.Undefined? && !d.isOptional) && !(d.notNull && (v.Null? || env.variant == Current)) ==>
      DeserializeProperty(env, v, d) == Ok(v)
    ensures DeserializeProperty(env', v, d) == DeserializeProperty(env, v, d)
  {
  }

  /** The two null tests differ only on descriptors the decorators reject (optional and not-null). */
  lemma NullTestsAgreeOnCompatibleOptions(env: Env, v: Value, d: MappingOptions)
    requires !Incompatible(d)
    ensures Nullish(v) ==> DeserializeProperty(env.(variant := Current), v, d) == DeserializeProperty(env.(variant := Legacy), v, d)
  {
  }

  /**
   * A present value: the type check comes first; then a converter (used as it is
   * when `Current` finds the method on it, constructed otherwise); then a
   * nested mapped class; otherwise the value passes through.
   */
  lemma DeserializePresentValue(env: Env, v: Value, d: MappingOptions)
    requires !Nullish(v)
    ensures var t := d.expectedJsonType; var r := DeserializeProperty(env, v, d);
      && (!CheckType(v, t, false) ==> r == Err(if t.NullType? then RuntimeTypeError else TypeMismatch))
      && (CheckType(v, t, false) && d.customMapper.Some? ==>
            var ref := d.customMapper.value;
            r == if env.variant == Current && ref.hasDeserialize then env.conv.deserialize(Shared(ref.id), v, env.ctx)
                 else if ref.constructible then env.conv.deserialize(Constructed(ref.id), v, env.ctx)
                 else Err(RuntimeTypeError))
      && (CheckType(v, t, false) && d.customMapper.None? && t.ClassType? && IsMapped(env.reg, t.name) ==>
            r == Deserialize(env, v, t.name))
      && (CheckType(v, t, false) && d.customMapper.None? && (t.UndefinedType? || t.NullType?) ==>
            r == Err(RuntimeTypeError))
      && (CheckType(v, t, false) && d.customMapper.None? && !(t.ClassType? && IsMapped(env.reg, t.name)) && !t.UndefinedType? && !t.NullType? ==>
            r == Ok(v))
  {
  }

  /** A missing or null class property: the same policy, with `notNull` asking for null in both versions. */
  lemma SerializeMissingOrNull(env: Env, env': Env, v: Value, d: MappingOptions)
    requires Nullish(v)
    ensures v.Undefined? && !d.isOptional ==> SerializeProperty(env, v, d) == Err(MissingProperty)
    ensures v.Null? && d.notNull ==> SerializeProperty(env, v, d) == Err(NotNullViolation)
    ensures (v.Undefined? && d.isOptional) || (v.Null? && !d.notNull) ==> SerializeProperty(env, v, d) == Ok(v)
    ensures SerializeProperty(env', v, d) == SerializeProperty(env, v, d)
  {
  }

  /**
   * A present class property: converter, nested `serialize` or the value itself
   * produce the JSON value, which then meets the null policy and the type check.
   */
  lemma SerializePresentValue(env: Env, v: Value, d: MappingOptions)
    requires !Nullish(v)
    ensures var t := d.expectedJsonType; var r := SerializeProperty(env, v, d);
      && (d.customMapper.Some? ==>
            var ref := d.customMapper.value;
            Produce(env, v, d) == if env.variant == Current && ref.hasSerialize then env.conv.serialize(Shared(ref.id), v, env.ctx)
                 else if ref.constructible then env.conv.serialize(Constructed(ref.id), v, env.ctx)
                 else Err(RuntimeTypeError))
      && (d.customMapper.None? && t.ClassType? && IsMapped(env.reg, t.name) ==> Produce(env, v, d) == Serialize(env, v))
      && (d.customMapper.None? && !(t.ClassType? && IsMapped(env.reg, t.name)) && !t.UndefinedType? && !t.NullType? ==>
            Produce(env, v, d) == Ok(v))
      && (Produce(env, v, d).Err? ==> r == Produce(env, v, d))
      && (Produce(env, v, d).Ok? ==>
            var j := Produce(env, v, d).value;
            r == if Nullish(j) then SerializeProperty(env, j, d)
                 else if !CheckType(j, t, false) then Err(if t.UndefinedType? || t.NullType? then RuntimeTypeError else TypeMismatch)
                 else Ok(j))
  {
  }

  /** Whatever a property serializes to is nullish or passes the type check. */
  lemma SerializedValueChecked(env: Env, v: Value, d: MappingOptions)
    requires SerializeProperty(env, v, d).Ok?
    ensures var j := SerializeProperty(env, v, d).value;
      Nullish(j) || CheckType(j, d.expectedJsonType, false)
  {
  }

  // ------------------------------------------------------------ arrays, element by element

  /**
   * `jsonValues.map(deserializeProperty)`: succeeds exactly when every element does,
   * keeping length and order; otherwise it fails with the first element's error.
   */
  lemma DeserializeElementsPointwise(env: Env, es: seq<Value>, d: MappingOptions)
    ensures var r := DeserializeElements(env, es, d);
      && (r.Ok? <==> forall i :: 0 <= i < |es| ==> DeserializeProperty(env, es[i], d).Ok?)
      && (r.Ok? ==> |r.value| == |es| && forall i :: 0 <= i < |es| ==> DeserializeProperty(env, es[i], d) == Ok(r.value[i]))
      && (r.Err? ==> exists i :: (0 <= i < |es| && DeserializeProperty(env, es[i], d) == Err(r.error)
                     && forall j :: 0 <= j < i ==> DeserializeProperty(env, es[j], d).Ok?))
  {
    var rs := DeserializeElementsCollects(env, es, d);
    CollectPointwise(rs);
    var r := DeserializeElements(env, es, d);
    if r.Err? {
      var i :| 0 <= i < |rs| && rs[i] == Err(r.error) && forall j :: 0 <= j < i ==> rs[j].Ok?;
      assert DeserializeProperty(env, es[i], d) == Err(r.error);
    }
  }

  /** `DeserializeElements` is `Collect` over the results of `DeserializeProperty` on each element. */
  lemma {:induction false} DeserializeElementsCollects(env: Env, es: seq<Value>, d: MappingOptions) returns (rs: seq<Result<Value>>)
    ensures |rs| == |es| && forall i :: 0 <= i < |es| ==> rs[i] == DeserializeProperty(env, es[i], d)
    ensures DeserializeElements(env, es, d) == Collect(rs)
  {
    if es == [] {
      rs := [];
    } else {
      var rest := DeserializeElementsCollects(env, es[1..], d);
      rs := [DeserializeProperty(env, es[0], d)] + rest;
      assert rs[1..] == rest;
      forall i | 0 < i < |es| ensures rs[i] == DeserializeProperty(env, es[i], d) {
        TailAt(es, i);
      }
    }
  }

  /** `serializePropertyArray`'s element map, likewise. */
  lemma SerializeElementsPointwise(env: Env, es: seq<Value>, d: MappingOptions)
    ensures var r := SerializeElements(env, es, d);
      && (r.Ok? <==> forall i :: 0 <= i < |es| ==> SerializeProperty(env, es[i], d).Ok?)
      && (r.Ok? ==> |r.value| == |es| && forall i :: 0 <= i < |es| ==> SerializeProperty(env, es[i], d) == Ok(r.value[i]))
      && (r.Err? ==> exists i :: (0 <= i < |es| && SerializeProperty(env, es[i], d) == Err(r.error)
                     && forall j :: 0 <= j < i ==> SerializeProperty(env, es[j], d).Ok?))
  {
    var rs := SerializeElementsCollects(env, es, d);
    CollectPointwise(rs);
    var r := SerializeElements(env, es, d);
    if r.Err? {
      var i :| 0 <= i < |rs| && rs[i] == Err(r.error) && forall j :: 0 <= j < i ==> rs[j].Ok?;
      assert SerializeProperty(env, es[i], d) == Err(r.error);
    }
  }

  /** `SerializeElements` is `Collect` over the results of `SerializeProperty` on each element. */
  lemma {:induction false} SerializeElementsCollects(env: Env, es: seq<Value>, d: MappingOptions) returns (rs: seq<Result<Value>>)
    ensures |rs| == |es| && forall i :: 0 <= i < |es| ==> rs[i] == SerializeProperty(env, es[i], d)
    ensures SerializeElements(env, es, d) == Collect(rs)
  {
    if es == [] {
      rs := [];
    } else {
      var rest := SerializeElementsCollects(env, es[1..], d);
      rs := [SerializeProperty(env, es[0], d)] + rest;
      assert rs[1..] == rest;
      forall i | 0 < i < |es| ensures rs[i] == SerializeProperty(env, es[i], d) {
        TailAt(es, i);
      }
    }
  }

  /** The `deserialize` facade on an array: each element is deserialized on its own, with the same class and context. */
  lemma DeserializeArrayPointwise(env: Env, es: seq<Value>, cls: string)
    ensures var r := DeserializeArray(env, es, cls);
      && (r.Ok? <==> forall i :: 0 <= i < |es| ==> DeserializeObject(env, es[i], cls).Ok?)
      && (r.Ok? ==> |r.value| == |es| && forall i :: 0 <= i < |es| ==> DeserializeObject(env, es[i], cls) == Ok(r.value[i]))
      && (r.Err? ==> exists i :: (0 <= i < |es| && DeserializeObject(env, es[i], cls) == Err(r.error)
                     && forall j :: 0 <= j < i ==> DeserializeObject(env, es[j], cls).Ok?))
  {
    var rs := DeserializeArrayCollects(env, es, cls);
    CollectPointwise(rs);
    var r := DeserializeArray(env, es, cls);
    if r.Err? {
      var i :| 0 <= i < |rs| && rs[i] == Err(r.error) && forall j :: 0 <= j < i ==> rs[j].Ok?;
      assert DeserializeObject(env, es[i], cls) == Err(r.error);
    }
  }

  /** `DeserializeArray` is `Collect` over the results of `DeserializeObject` on each element. */
  lemma {:induction false} DeserializeArrayCollects(env: Env, es: seq<Value>, cls: string) returns (rs: seq<Result<Value>>)
    ensures |rs| == |es| && forall i :: 0 <= i < |es| ==> rs[i] == DeserializeObject(env, es[i], cls)
    ensures DeserializeArray(env, es, cls) == Collect(rs)
  {
    if es == [] {
      rs := [];
    } else {
      var rest := DeserializeArrayCollects(env, es[1..], cls);
      rs := [DeserializeObject(env, es[0], cls)] + rest;
      assert rs[1..] == rest;
      forall i | 0 < i < |es| ensures rs[i] == DeserializeObject(env, es[i], cls) {
        TailAt(es, i);
      }
    }
  }

  /** The `serialize` facade on an array: each element is serialized on its own, with the same context. */
  lemma SerializeEachPointwise(env: Env, es: seq<Value>)
    ensures var r := SerializeEach(env, es);
      && (r.Ok? <==> forall i :: 0 <= i < |es| ==> SerializeInstance(env, es[i]).Ok?)
      && (r.Ok? ==> |r.value| == |es| && forall i :: 0 <= i < |es| ==> SerializeInstance(env, es[i]) == Ok(r.value[i]))
      && (r.Err? ==> exists i :: (0 <= i < |es| && SerializeInstance(env, es[i]) == Err(r.error)
                     && forall j :: 0 <= j < i ==> SerializeInstance(env, es[j]).Ok?))
  {
    var rs := SerializeEachCollects(env, es);
    CollectPointwise(rs);
    var r := SerializeEach(env, es);
    if r.Err? {
      var i :| 0 <= i < |rs| && rs[i] == Err(r.error) && forall j :: 0 <= j < i ==> rs[j].Ok?;
      assert SerializeInstance(env, es[i]) == Err(r.error);
    }
  }

  /** `SerializeEach` is `Collect` over the results of `SerializeInstance` on each element. */
  lemma {:induction false} SerializeEachCollects(env: Env, es: seq<Value>) returns (rs: seq<Result<Value>>)
    ensures |rs| == |es| && forall i :: 0 <= i < |es| ==> rs[i] == SerializeInstance(env, es[i])
    ensures SerializeEach(env, es) == Collect(rs)
  {
    if es == [] {
      rs := [];
    } else {
      var rest := SerializeEachCollects(env, es[1..]);
      rs := [SerializeInstance(env, es[0])] + rest;
      assert rs[1..] == rest;
      forall i | 0 < i < |es| ensures rs[i] == SerializeInstance(env, es[i]) {
        TailAt(es, i);
      }
    }
  }

  /** The facades hand an array to the element maps above and wrap their result back into an array. */
  lemma ArrayFacades(env: Env, es: seq<Value>, cls: string)
    ensures var r := DeserializeArray(env, es, cls); Deserialize(env, Arr(es), cls) == if r.Ok? then Ok(Arr(r.value)) else Err(r.error)
    ensures var r := SerializeEach(env, es); Serialize(env, Arr(es)) == if r.Ok? then Ok(Arr(r.value)) else Err(r.error)
  {
  }

  /** `deserializePropertyArray`: the policy on the whole value, then the array check, then the element map. */
  lemma DeserializePropertyArrayShape(env: Env, v: Value, d: MappingOptions)
    ensures Nullish(v) ==> DeserializePropertyArray(env, v, d) == NullPolicy(v, d, false)
    ensures !Nullish(v) && !CheckType(v, d.expectedJsonType, true) ==> DeserializePropertyArray(env, v, d) == Err(TypeMismatch)
    ensures !Nullish(v) && CheckType(v, d.expectedJsonType, true) ==> v.Arr?
    ensures v.Arr? && CheckType(v, d.expectedJsonType, true) ==>
      DeserializePropertyArray(env, v, d) ==
        match DeserializeElements(env, v.elems, d) case Ok(rs) => Ok(Arr(rs)) case Err(e) => Err(e)
  {
  }

  /** `serializePropertyArray`: the policy on the whole value, then `Array.isArray`, then the element map. */
  lemma SerializePropertyArrayShape(env: Env, v: Value, d: MappingOptions)
    ensures Nullish(v) ==> SerializePropertyArray(env, v, d) == NullPolicy(v, d, false)
    ensures !Nullish(v) && !v.Arr? ==> SerializePropertyArray(env, v, d) == Err(TypeMismatch)
    ensures v.Arr? ==>
      SerializePropertyArray(env, v, d) ==
        match SerializeElements(env, v.elems, d) case Ok(rs) => Ok(Arr(rs)) case Err(e) => Err(e)
  {
  }

  // ------------------------------------------------------------ the field loops

  /** One deserialize step writes only its own class property, and fails exactly when the field does not resolve. */
  lemma FieldStepEffect(env: Env, obj: Value, d: MappingOptions, fields: Props)
    ensures FieldStep(env, obj, d, fields).Ok? <==> ResolveField(env, obj, d).Ok?
    ensures FieldStep(env, obj, d, fields).Ok? ==>
      var out := FieldStep(env, obj, d, fields).value; var x := ResolveField(env, obj, d).value;
      && (forall k :: k != d.classPropertyName ==> Field(out, k) == Field(fields, k))
      && Field(out, d.classPropertyName) == (if x.Undefined? && env.variant == Current && !d.overrideInitValue then Field(fields, d.classPropertyName) else x)
  {
  }

  /** The deserialize loop succeeds exactly when every descriptor resolves. */
  lemma LoopFieldsSucceeds(env: Env, obj: Value, ds: seq<MappingOptions>, fields: Props)
    ensures LoopFields(env, obj, ds, fields).Ok? <==> forall m :: 0 <= m < |ds| ==> ResolveField(env, obj, ds[m]).Ok?
  {
    if LoopFields(env, obj, ds, fields).Ok? {
      var xs := LoopFieldsFills(env, obj, ds, fields);
    } else if forall m :: 0 <= m < |ds| ==> ResolveField(env, obj, ds[m]).Ok? {
      LoopFieldsRuns(env, obj, ds, fields);
    }
  }

  /** When every descriptor resolves, the deserialize loop runs to the end. */
  lemma {:induction false} LoopFieldsRuns(env: Env, obj: Value, ds: seq<MappingOptions>, fields: Props)
    requires forall m :: 0 <= m < |ds| ==> ResolveField(env, obj, ds[m]).Ok?
    ensures LoopFields(env, obj, ds, fields).Ok?
  {
    if ds != [] {
      FieldStepEffect(env, obj, ds[0], fields);
      var next := FieldStep(env, obj, ds[0], fields).value;
      forall m | 0 <= m < |ds[1..]| ensures ResolveField(env, obj, ds[1..][m]).Ok? {
        TailAt(ds, m + 1);
      }
      LoopFieldsRuns(env, obj, ds[1..], next);
    }
  }

  /**
   * What a class property holds after its descriptor resolved to `x`, `init` being
   * what it held before: `Current` puts `init` back when `x` is `undefined` and the
   * descriptor does not override it; otherwise `x` stays.
   */
  function Settled(variant: Variant, d: MappingOptions, init: Value, x: Value): Value {
    if x.Undefined? && variant == Current && !d.overrideInitValue then init else x
  }

  /** Reference loop: the fields after settling descriptor `ds[i]` to the already resolved `xs[i]`, in order. */
  function FillFields(variant: Variant, ds: seq<MappingOptions>, xs: seq<Value>, fields: Props): Props
    requires |xs| == |ds|
  {
    if ds == [] then fields
    else
      var p := ds[0].classPropertyName;
      FillFields(variant, ds[1..], xs[1..], Put(fields, p, Settled(variant, ds[0], Field(fields, p), xs[0])))
  }

  /** A successful deserialize loop is the reference loop over the values its descriptors resolve to. */
  lemma {:induction false} LoopFieldsFills(env: Env, obj: Value, ds: seq<MappingOptions>, fields: Props) returns (xs: seq<Value>)
    requires LoopFields(env, obj, ds, fields).Ok?
    ensures |xs| == |ds| && forall i :: 0 <= i < |ds| ==> ResolveField(env, obj, ds[i]) == Ok(xs[i])
    ensures LoopFields(env, obj, ds, fields) == Ok(FillFields(env.variant, ds, xs, fields))
  {
    if ds == [] {
      xs := [];
    } else {
      var x, next := FieldStepSettles(env, obj, ds[0], fields);
      assert LoopFields(env, obj, ds, fields) == LoopFields(env, obj, ds[1..], next);
      var rest := LoopFieldsFills(env, obj, ds[1..], next);
      xs := [x] + rest;
      assert xs[1..] == rest;
      forall i | 0 < i < |ds| ensures ResolveField(env, obj, ds[i]) == Ok(xs[i]) {
        assert ds[i] == ds[1..][i - 1];
      }
    }
  }

  /** A successful deserialize step settles its own class property to the value its descriptor resolves to. */
  lemma FieldStepSettles(env: Env, obj: Value, d: MappingOptions, fields: Props) returns (x: Value, next: Props)
    requires FieldStep(env, obj, d, fields).Ok?
    ensures ResolveField(env, obj, d) == Ok(x) && FieldStep(env, obj, d, fields) == Ok(next)
    ensures next == Put(fields, d.classPropertyName, Settled(env.variant, d, Field(fields, d.classPropertyName), x))
  {
    x := ResolveField(env, obj, d).value;
    next := FieldStep(env, obj, d, fields).value;
    var p := d.classPropertyName;
    if x.Undefined? && env.variant == Current && !d.overrideInitValue {
      PutPut(fields, p, x, Field(fields, p));
    }
  }

  /** The descriptors after the first keep distinct property names, none of them the first one's. */
  lemma UniquePropertiesTail(ds: seq<MappingOptions>)
    requires UniqueProperties(ds) && ds != []
    ensures UniqueProperties(ds[1..]) && Unmapped(ds[1..], ds[0].classPropertyName)
  {
    forall i, j | 0 <= i < j < |ds[1..]| ensures ds[1..][i].classPropertyName != ds[1..][j].classPropertyName {
      assert ds[1..][i] == ds[i + 1] && ds[1..][j] == ds[j + 1];
    }
    forall i | 0 <= i < |ds[1..]| ensures ds[1..][i].classPropertyName != ds[0].classPropertyName {
      assert ds[1..][i] == ds[i + 1];
    }
  }

  /** The reference loop leaves class properties that no descriptor names alone. */
  lemma {:induction false} FillKeepsUnmapped(variant: Variant, ds: seq<MappingOptions>, xs: seq<Value>, fields: Props, k: string)
    requires |xs| == |ds| && Unmapped(ds, k)
    ensures Field(FillFields(variant, ds, xs, fields), k) == Field(fields, k)
  {
    if ds != [] {
      var p := ds[0].classPropertyName;
      assert Unmapped(ds[1..], k) by {
        forall i | 0 <= i < |ds[1..]| ensures ds[1..][i].classPropertyName != k {
          assert ds[1..][i] == ds[i + 1];
        }
      }
      FillKeepsUnmapped(variant, ds[1..], xs[1..], Put(fields, p, Settled(variant, ds[0], Field(fields, p), xs[0])), k);
    }
  }

  /** With one descriptor per class property, the reference loop settles each of them once, over its value before the loop. */
  lemma {:induction false} FillSettles(variant: Variant, ds: seq<MappingOptions>, xs: seq<Value>, fields: Props, m: nat)
    requires |xs| == |ds| && UniqueProperties(ds) && m < |ds|
    ensures var p := ds[m].classPropertyName;
      Field(FillFields(variant, ds, xs, fields), p) == Settled(variant, ds[m], Field(fields, p), xs[m])
  {
    if m == 0 {
      FillSettlesFirst(variant, ds, xs, fields);
    } else {
      var next := FillSettlesStep(variant, ds, xs, fields, m);
      FillSettles(variant, ds[1..], xs[1..], next, m - 1);
    }
  }

  /**
   * One step of the reference loop, seen from a later descriptor `ds[m]`: the first
   * step writes another property, and `ds[m]` is descriptor `m - 1` of the rest.
   */
  lemma FillSettlesStep(variant: Variant, ds: seq<MappingOptions>, xs: seq<Value>, fields: Props, m: nat) returns (next: Props)
    requires |xs| == |ds| && UniqueProperties(ds) && 0 < m < |ds|
    ensures FillFields(variant, ds, xs, fields) == FillFields(variant, ds[1..], xs[1..], next)
    ensures UniqueProperties(ds[1..]) && ds[1..][m - 1] == ds[m] && xs[1..][m - 1] == xs[m]
    ensures Field(next, ds[m].classPropertyName) == Field(fields, ds[m].classPropertyName)
  {
    var p := ds[0].classPropertyName;
    next := Put(fields, p, Settled(variant, ds[0], Field(fields, p), xs[0]));
    UniquePropertiesTail(ds);
    TailAt(ds, m);
    TailAt(xs, m);
    assert ds[m].classPropertyName != p;
  }

  /** The first descriptor's property: settled by the first step, untouched by the rest. */
  lemma FillSettlesFirst(variant: Variant, ds: seq<MappingOptions>, xs: seq<Value>, fields: Props)
    requires |xs| == |ds| && UniqueProperties(ds) && ds != []
    ensures var p := ds[0].classPropertyName;
      Field(FillFields(variant, ds, xs, fields), p) == Settled(variant, ds[0], Field(fields, p), xs[0])
  {
    var p := ds[0].classPropertyName;
    var next := Put(fields, p, Settled(variant, ds[0], Field(fields, p), xs[0]));
    UniquePropertiesTail(ds);
    FillKeepsUnmapped(variant, ds[1..], xs[1..], next, p);
  }

  /** Class properties no descriptor names keep the value the fresh instance gave them. */
  lemma LoopFieldsKeepsUnmapped(env: Env, obj: Value, ds: seq<MappingOptions>, fields: Props, k: string)
    requires Unmapped(ds, k)
    requires LoopFields(env, obj, ds, fields).Ok?
    ensures Field(LoopFields(env, obj, ds, fields).value, k) == Field(fields, k)
  {
    var xs := LoopFieldsFills(env, obj, ds, fields);
    FillKeepsUnmapped(env.variant, ds, xs, fields, k);
  }

  /**
   * With one descriptor per class property, each mapped property ends up holding its
   * resolved value, except that `Current` puts back the fresh instance's value when
   * the result is `undefined` and the descriptor does not override it (so under
   * `Legacy`, and for a `null` result, the resolved value always stays).
   */
  lemma LoopFieldsSettles(env: Env, obj: Value, ds: seq<MappingOptions>, fields: Props, m: nat)
    requires UniqueProperties(ds) && m < |ds|
    requires LoopFields(env, obj, ds, fields).Ok?
    ensures ResolveField(env, obj, ds[m]).Ok?
    ensures var out := LoopFields(env, obj, ds, fields).value; var x := ResolveField(env, obj, ds[m]).value;
      var p := ds[m].classPropertyName;
      Field(out, p) == if x.Undefined? && env.variant == Current && !ds[m].overrideInitValue then Field(fields, p) else x
  {
    var xs := LoopFieldsFills(env, obj, ds, fields);
    FillSettles(env.variant, ds, xs, fields, m);
  }

  /** The serialize loop succeeds exactly when every descriptor's property serializes. */
  lemma SerializeFieldsSucceeds(env: Env, inst: Value, ds: seq<MappingOptions>, json: Props)
    requires inst.Inst?
    ensures SerializeFields(env, inst, ds, json).Ok? <==> forall m :: 0 <= m < |ds| ==> SerializeField(env, inst, ds[m]).Ok?
  {
    if SerializeFields(env, inst, ds, json).Ok? {
      var ys := SerializeFieldsWritesJson(env, inst, ds, json);
    } else if forall m :: 0 <= m < |ds| ==> SerializeField(env, inst, ds[m]).Ok? {
      SerializeFieldsRuns(env, inst, ds, json);
    }
  }

  /** When every descriptor's property serializes, the serialize loop runs to the end. */
  lemma {:induction false} SerializeFieldsRuns(env: Env, inst: Value, ds: seq<MappingOptions>, json: Props)
    requires inst.Inst? && forall m :: 0 <= m < |ds| ==> SerializeField(env, inst, ds[m]).Ok?
    ensures SerializeFields(env, inst, ds, json).Ok?
  {
    if ds != [] {
      var next := SerializeFieldStep(env, inst, ds[0], json).value;
      forall m | 0 <= m < |ds[1..]| ensures SerializeField(env, inst, ds[1..][m]).Ok? {
        TailAt(ds, m + 1);
      }
      SerializeFieldsRuns(env, inst, ds[1..], next);
    }
  }

  /** Reference loop: `json` after writing the already serialized `ys[i]` under each `ds[i].jsonPropertyName`, in order. */
  function WriteJson(ds: seq<MappingOptions>, ys: seq<Value>, json: Props): Props
    requires |ys| == |ds|
  {
    if ds == [] then json else WriteJson(ds[1..], ys[1..], Put(json, ds[0].jsonPropertyName, ys[0]))
  }

  /** A successful serialize loop is the reference loop over the values its descriptors' properties serialize to. */
  lemma {:induction false} SerializeFieldsWritesJson(env: Env, inst: Value, ds: seq<MappingOptions>, json: Props) returns (ys: seq<Value>)
    requires inst.Inst? && SerializeFields(env, inst, ds, json).Ok?
    ensures |ys| == |ds| && forall i :: 0 <= i < |ds| ==> SerializeField(env, inst, ds[i]) == Ok(ys[i])
    ensures SerializeFields(env, inst, ds, json) == Ok(WriteJson(ds, ys, json))
  {
    if ds == [] {
      ys := [];
    } else {
      var y := SerializeField(env, inst, ds[0]).value;
      var rest := SerializeFieldsWritesJson(env, inst, ds[1..], Put(json, ds[0].jsonPropertyName, y));
      ys := [y] + rest;
      assert ys[1..] == rest;
      forall i | 0 < i < |ds| ensures SerializeField(env, inst, ds[i]) == Ok(ys[i]) {
        assert ds[i] == ds[1..][i - 1];
      }
    }
  }

  /** A key of `json` stays a key through the rest of the reference loop. */
  lemma {:induction false} WritePreservesKey(ds: seq<MappingOptions>, ys: seq<Value>, json: Props, k: string)
    requires |ys| == |ds| && k in Keys(json)
    ensures k in Keys(WriteJson(ds, ys, json))
  {
    if ds != [] {
      WritePreservesKey(ds[1..], ys[1..], Put(json, ds[0].jsonPropertyName, ys[0]), k);
    }
  }

  /** The keys the reference loop leaves: the ones `json` had and one per descriptor, with no repeats. */
  lemma {:induction false} WriteKeys(ds: seq<MappingOptions>, ys: seq<Value>, json: Props)
    requires |ys| == |ds| && Distinct(Keys(json))
    ensures var out := WriteJson(ds, ys, json);
      && Distinct(Keys(out))
      && (forall i :: 0 <= i < |out| ==> out[i].key in Keys(json) || out[i].key in JsonNames(ds))
      && (forall m :: 0 <= m < |ds| ==> ds[m].jsonPropertyName in Keys(out))
  {
    if ds != [] {
      var next := Put(json, ds[0].jsonPropertyName, ys[0]);
      PutKeepsDistinct(json, ds[0].jsonPropertyName, ys[0]);
      WriteKeys(ds[1..], ys[1..], next);
      var out := WriteJson(ds, ys, json);
      assert JsonNames(ds) == [ds[0].jsonPropertyName] + JsonNames(ds[1..]);
      forall i | 0 <= i < |out| ensures out[i].key in Keys(json) || out[i].key in JsonNames(ds) {
        assert Keys(out)[i] == out[i].key;
      }
      assert forall m :: 0 < m < |ds| ==> ds[m] == ds[1..][m - 1];
      WritePreservesKey(ds[1..], ys[1..], next, ds[0].jsonPropertyName);
    }
  }

  /** The keys the serialize loop leaves in `json`: the ones it had and one per descriptor, with no repeats. */
  lemma SerializeFieldsKeys(env: Env, inst: Value, ds: seq<MappingOptions>, json: Props)
    requires inst.Inst? && Distinct(Keys(json))
    requires SerializeFields(env, inst, ds, json).Ok?
    ensures var out := SerializeFields(env, inst, ds, json).value;
      && Distinct(Keys(out))
      && (forall i :: 0 <= i < |out| ==> out[i].key in Keys(json) || out[i].key in JsonNames(ds))
      && (forall m :: 0 <= m < |ds| ==> ds[m].jsonPropertyName in Keys(out))
  {
    var ys := SerializeFieldsWritesJson(env, inst, ds, json);
    WriteKeys(ds, ys, json);
  }

  /** The descriptors after the first keep distinct JSON names, none of them the first one's. */
  lemma UniqueJsonNamesTail(ds: seq<MappingOptions>)
    requires UniqueJsonNames(ds) && ds != []
    ensures UniqueJsonNames(ds[1..]) && Unwritten(ds[1..], ds[0].jsonPropertyName)
  {
    forall i, j | 0 <= i < j < |ds[1..]| ensures ds[1..][i].jsonPropertyName != ds[1..][j].jsonPropertyName {
      assert ds[1..][i] == ds[i + 1] && ds[1..][j] == ds[j + 1];
    }
    forall i | 0 <= i < |ds[1..]| ensures ds[1..][i].jsonPropertyName != ds[0].jsonPropertyName {
      assert ds[1..][i] == ds[i + 1];
    }
  }

  /** JSON names no remaining descriptor writes keep their value through the reference loop. */
  lemma {:induction false} WriteKeepsUnwritten(ds: seq<MappingOptions>, ys: seq<Value>, json: Props, k: string)
    requires |ys| == |ds| && Unwritten(ds, k)
    ensures Field(WriteJson(ds, ys, json), k) == Field(json, k)
  {
    if ds != [] {
      assert Unwritten(ds[1..], k) by {
        forall i | 0 <= i < |ds[1..]| ensures ds[1..][i].jsonPropertyName != k {
          assert ds[1..][i] == ds[i + 1];
        }
      }
      WriteKeepsUnwritten(ds[1..], ys[1..], Put(json, ds[0].jsonPropertyName, ys[0]), k);
    }
  }

  /** With one descriptor per JSON name, the reference loop leaves each name holding its own value. */
  lemma {:induction false} WriteWrites(ds: seq<MappingOptions>, ys: seq<Value>, json: Props, m: nat)
    requires |ys| == |ds| && UniqueJsonNames(ds) && m < |ds|
    ensures Field(WriteJson(ds, ys, json), ds[m].jsonPropertyName) == ys[m]
  {
    if m == 0 {
      WriteWritesFirst(ds, ys, json);
    } else {
      var p, q := ds[0].jsonPropertyName, ds[m].jsonPropertyName;
      var next := Put(json, p, ys[0]);
      assert WriteJson(ds, ys, json) == WriteJson(ds[1..], ys[1..], next);
      assert UniqueJsonNames(ds[1..]) && ds[1..][m - 1] == ds[m] && ys[1..][m - 1] == ys[m] && q != p by {
        UniqueJsonNamesTail(ds);
        TailAt(ds, m);
        TailAt(ys, m);
      }
      assert Field(next, q) == Field(json, q);
      WriteWrites(ds[1..], ys[1..], next, m - 1);
    }
  }

  /** The first descriptor's JSON name: written by the first step, untouched by the rest. */
  lemma WriteWritesFirst(ds: seq<MappingOptions>, ys: seq<Value>, json: Props)
    requires |ys| == |ds| && UniqueJsonNames(ds) && ds != []
    ensures Field(WriteJson(ds, ys, json), ds[0].jsonPropertyName) == ys[0]
  {
    UniqueJsonNamesTail(ds);
    WriteKeepsUnwritten(ds[1..], ys[1..], Put(json, ds[0].jsonPropertyName, ys[0]), ds[0].jsonPropertyName);
  }

  /** With one descriptor per JSON name, each name holds what its property serialized to. */
  lemma SerializeFieldsWrites(env: Env, inst: Value, ds: seq<MappingOptions>, json: Props, m: nat)
    requires inst.Inst? && UniqueJsonNames(ds) && m < |ds|
    requires SerializeFields(env, inst, ds, json).Ok?
    ensures SerializeField(env, inst, ds[m]).Ok?
    ensures Field(SerializeFields(env, inst, ds, json).value, ds[m].jsonPropertyName) == SerializeField(env, inst, ds[m]).value
  {
    var ys := SerializeFieldsWritesJson(env, inst, ds, json);
    WriteWrites(ds, ys, json, m);
  }

  // ------------------------------------------------------------ whole objects

  /** Unmapped classes are rejected both ways; `instance.constructor` on null or undefined is a TypeError. */
  lemma UnmappedIsRejected(env: Env, obj: Value, cls: string, v: Value)
    ensures !IsMapped(env.reg, cls) ==> LoopProperties(env, obj, cls) == Err(NotMapped)
    ensures Nullish(v) ==> SerializeInstance(env, v) == Err(RuntimeTypeError)
    ensures !Nullish(v) && !(v.Inst? && IsMapped(env.reg, v.cls)) ==> SerializeInstance(env, v) == Err(NotMapped)
  {
  }

  /**
   * A deserialized object is an instance of the requested class whose unmapped
   * properties are those of `new C()` and whose mapped properties settle as
   * LoopFieldsSettles says.
   */
  lemma DeserializedInstance(env: Env, obj: Value, cls: string, m: nat, k: string)
    requires LoopProperties(env, obj, cls).Ok?
    ensures IsMapped(env.reg, cls)
    ensures var r := LoopProperties(env, obj, cls).value; r.Inst? && r.cls == cls
    ensures Unmapped(Descriptors(env.reg, cls), k) ==>
      Field(LoopProperties(env, obj, cls).value.fields, k) == Field(NewInstance(env.reg, cls), k)
    ensures var ds := Descriptors(env.reg, cls);
      UniqueProperties(ds) && m < |ds| ==>
        var p := ds[m].classPropertyName; var out := LoopProperties(env, obj, cls).value.fields;
        && ResolveField(env, obj, ds[m]).Ok?
        && var x := ResolveField(env, obj, ds[m]).value;
        Field(out, p) == if x.Undefined? && env.variant == Current && !ds[m].overrideInitValue then Field(NewInstance(env.reg, cls), p) else x
  {
    var ds := Descriptors(env.reg, cls);
    if Unmapped(ds, k) {
      LoopFieldsKeepsUnmapped(env, obj, ds, NewInstance(env.reg, cls), k);
    }
    if UniqueProperties(ds) && m < |ds| {
      LoopFieldsSettles(env, obj, ds, NewInstance(env.reg, cls), m);
    }
  }

  /**
   * A serialized instance is a plain object with no `undefined` value and only the
   * descriptors' JSON names as keys; with one descriptor per JSON name, each name
   * reads back what its property serialized to, and is present exactly when that
   * is not `undefined` (null is kept).
   */
  lemma SerializedObject(env: Env, v: Value, m: nat)
    requires SerializeInstance(env, v).Ok?
    ensures v.Inst? && IsMapped(env.reg, v.cls)
    ensures var j := SerializeInstance(env, v).value;
      && j.Obj?
      && (forall i :: 0 <= i < |j.props| ==> !j.props[i].val.Undefined?)
      && (forall i :: 0 <= i < |j.props| ==> j.props[i].key in JsonNames(Descriptors(env.reg, v.cls)))
    ensures var ds := Descriptors(env.reg, v.cls); var j := SerializeInstance(env, v).value;
      UniqueJsonNames(ds) && m < |ds| ==>
        && SerializeField(env, v, ds[m]).Ok?
        && Field(j.props, ds[m].jsonPropertyName) == SerializeField(env, v, ds[m]).value
        && (ds[m].jsonPropertyName in Keys(j.props) <==> !SerializeField(env, v, ds[m]).value.Undefined?)
  {
    var ds := Descriptors(env.reg, v.cls);
    var json := SerializeFields(env, v, ds, []).value;
    SerializeFieldsKeys(env, v, ds, []);
    var j := DropUndefined(json);
    forall i | 0 <= i < |j| ensures j[i].key in JsonNames(ds) {
      var w :| 0 <= w < |json| && json[w] == j[i];
      var none: Props := [];
      assert json[w].key in Keys(none) || json[w].key in JsonNames(ds);
    }
    if UniqueJsonNames(ds) && m < |ds| {
      SerializeFieldsWrites(env, v, ds, [], m);
      DropUndefinedReads(json, ds[m].jsonPropertyName);
    }
  }

  // ------------------------------------------------------------ round trip

  /**
   * A value one property (or one element of an array property) can carry through
   * both directions: present, with no converter, and either of its declared type,
   * or an instance of the declared mapped class that is itself portable.
   */
  ghost predicate PortableValue(reg: Registry, d: MappingOptions, v: Value)
    decreases Size(v), 1
  {
    && !Nullish(v)
    && d.customMapper.None?
    && match d.expectedJsonType
       case UndefinedType => false
       case NullType => false
       case ClassType(c) =>
         if IsMapped(reg, c) then v.Inst? && v.cls == c && PortableInstance(reg, v)
         else CheckScalar(v, d.expectedJsonType)
       case _ => CheckScalar(v, d.expectedJsonType)
  }

  /**
   * A property holds `null` where `notNull` is not set; otherwise an array property
   * holds an array of portable elements and any other property a portable value.
   */
  ghost predicate PortableField(reg: Registry, d: MappingOptions, v: Value)
    decreases Size(v), 2
  {
    if v.Null? then !d.notNull
    else if d.isArray then v.Arr? && forall i :: 0 <= i < |v.elems| ==> PortableValue(reg, d, ElementOf(v, i))
    else PortableValue(reg, d, v)
  }

  /** An instance of a mapped class with one descriptor per property and per JSON name, and every mapped property portable. */
  ghost predicate PortableInstance(reg: Registry, inst: Value)
    requires inst.Inst?
    decreases Size(inst), 0
  {
    var ds := Descriptors(reg, inst.cls);
    && IsMapped(reg, inst.cls)
    && UniqueProperties(ds) && UniqueJsonNames(ds)
    && forall i :: 0 <= i < |ds| ==> PortableField(reg, ds[i], FieldOf(inst, ds[i].classPropertyName))
  }

  /** `w` gives `v` back: the same value, except that a nested instance comes back as RestoresInstance says. */
  ghost predicate Restores(reg: Registry, d: MappingOptions, v: Value, w: Value)
    decreases Size(v), 1
  {
    if v.Inst? && d.expectedJsonType.ClassType? && IsMapped(reg, d.expectedJsonType.name) then RestoresInstance(reg, v, w)
    else w == v
  }

  /** An array property comes back element by element, with the same length; any other property as a value. */
  ghost predicate RestoresField(reg: Registry, d: MappingOptions, v: Value, w: Value)
    decreases Size(v), 2
  {
    if d.isArray && v.Arr? then
      && w.Arr? && |w.elems| == |v.elems|
      && forall i :: 0 <= i < |v.elems| ==> Restores(reg, d, ElementOf(v, i), w.elems[i])
    else Restores(reg, d, v, w)
  }

  /**
   * `w` is a `new C()` of the class of `v` whose mapped properties give back those
   * of `v` and whose other properties are the ones `new C()` starts with.
   */
  ghost predicate RestoresInstance(reg: Registry, v: Value, w: Value)
    requires v.Inst?
    decreases Size(v), 0
  {
    var ds := Descriptors(reg, v.cls);
    && w.Inst? && w.cls == v.cls
    && (forall i :: 0 <= i < |ds| ==>
          RestoresField(reg, ds[i], FieldOf(v, ds[i].classPropertyName), Field(w.fields, ds[i].classPropertyName)))
    && (forall k :: Unmapped(ds, k) ==> Field(w.fields, k) == Field(NewInstance(reg, v.cls), k))
  }

  /** A present value of its declared scalar type, with no converter and no mapped class, passes through both directions unchanged. */
  lemma ScalarPassesThrough(env: Env, d: MappingOptions, v: Value)
    requires !Nullish(v) && d.customMapper.None? && CheckScalar(v, d.expectedJsonType)
    requires !d.expectedJsonType.UndefinedType? && !d.expectedJsonType.NullType?
    requires !(d.expectedJsonType.ClassType? && IsMapped(env.reg, d.expectedJsonType.name))
    ensures SerializeProperty(env, v, d) == Ok(v)
    ensures DeserializeProperty(env, v, d) == Ok(v)
  {
    assert Produce(env, v, d) == Ok(v);
  }

  /** An instance of the declared mapped class is serialized and deserialized as a whole object of that class. */
  lemma NestedGoesThroughClass(env: Env, d: MappingOptions, v: Value)
    requires v.Inst? && d.customMapper.None? && d.expectedJsonType == ClassType(v.cls) && IsMapped(env.reg, v.cls)
    requires SerializeInstance(env, v).Ok? && SerializeInstance(env, v).value.Obj?
    ensures SerializeProperty(env, v, d) == SerializeInstance(env, v)
    ensures var j := SerializeInstance(env, v).value; DeserializeProperty(env, j, d) == LoopProperties(env, j, v.cls)
  {
    assert Produce(env, v, d) == SerializeInstance(env, v);
    var j := SerializeInstance(env, v).value;
    assert CheckType(j, d.expectedJsonType, false);
    assert MappedClass(env.reg, d.expectedJsonType) == Ok(Some(v.cls));
    assert Deserialize(env, j, v.cls) == DeserializeObject(env, j, v.cls);
  }

  /**
   * A portable value serializes to a present JSON value of the declared type, and
   * that deserializes to a value giving the original back.
   */
  lemma {:induction false} RoundTripValue(env: Env, d: MappingOptions, v: Value)
    requires PortableValue(env.reg, d, v)
    ensures SerializeProperty(env, v, d).Ok?
    ensures var j := SerializeProperty(env, v, d).value;
      && !Nullish(j) && CheckScalar(j, d.expectedJsonType)
      && DeserializeProperty(env, j, d).Ok?
      && !DeserializeProperty(env, j, d).value.Undefined?
      && Restores(env.reg, d, v, DeserializeProperty(env, j, d).value)
    decreases Size(v), 3
  {
    var t := d.expectedJsonType;
    if t.ClassType? && IsMapped(env.reg, t.name) {
      RoundTripInstance(env, v);
      NestedGoesThroughClass(env, d, v);
    } else {
      ScalarPassesThrough(env, d, v);
    }
  }

  /**
   * A portable property, array or not, serializes to a JSON value other than
   * `undefined` (so the key is kept) that deserializes to one giving it back.
   */
  lemma {:induction false} RoundTripField(env: Env, d: MappingOptions, v: Value)
    requires PortableField(env.reg, d, v)
    ensures var s := if d.isArray then SerializePropertyArray(env, v, d) else SerializeProperty(env, v, d);
      && s.Ok? && !s.value.Undefined?
      && var back := if d.isArray then DeserializePropertyArray(env, s.value, d) else DeserializeProperty(env, s.value, d);
         back.Ok? && !back.value.Undefined? && RestoresField(env.reg, d, v, back.value)
    decreases Size(v), 4
  {
    if v.Null? {
      assert SerializeProperty(env, v, d) == Ok(Null);
    } else if d.isArray {
      var es := v.elems;
      forall i | 0 <= i < |es|
        ensures SerializeProperty(env, es[i], d).Ok?
        ensures var j := SerializeProperty(env, es[i], d).value;
          && DeserializeProperty(env, j, d).Ok?
          && CheckScalar(j, d.expectedJsonType)
          && Restores(env.reg, d, ElementOf(v, i), DeserializeProperty(env, j, d).value)
      {
        RoundTripValue(env, d, ElementOf(v, i));
      }
      SerializeElementsPointwise(env, es, d);
      var ys := SerializeElements(env, es, d).value;
      DeserializeElementsPointwise(env, ys, d);
      var zs := DeserializeElements(env, ys, d).value;
      assert CheckType(Arr(ys), d.expectedJsonType, true);
      assert DeserializePropertyArray(env, Arr(ys), d) == Ok(Arr(zs));
    } else {
      RoundTripValue(env, d, v);
    }
  }

  /**
   * Descriptor `i` of a portable instance: its property serializes to a present
   * value, and reading its JSON name back from the serialized object resolves to
   * a value giving the property back.
   */
  lemma RoundTripFieldAt(env: Env, inst: Value, i: nat)
    requires inst.Inst? && PortableInstance(env.reg, inst) && i < |Descriptors(env.reg, inst.cls)|
    ensures SerializeField(env, inst, Descriptors(env.reg, inst.cls)[i]).Ok?
    ensures var d := Descriptors(env.reg, inst.cls)[i];
      SerializeInstance(env, inst).Ok? ==>
        var x := ResolveField(env, SerializeInstance(env, inst).value, d);
        x.Ok? && !x.value.Undefined? && RestoresField(env.reg, d, FieldOf(inst, d.classPropertyName), x.value)
    decreases Size(inst), 1
  {
    var d := Descriptors(env.reg, inst.cls)[i];
    RoundTripField(env, d, FieldOf(inst, d.classPropertyName));
    if SerializeInstance(env, inst).Ok? {
      JsonNameReadsBack(env, inst, i);
    }
  }

  /** With one descriptor per JSON name, descriptor `i` reads back from the serialized object what its property serialized to. */
  lemma JsonNameReadsBack(env: Env, inst: Value, i: nat)
    requires SerializeInstance(env, inst).Ok? && UniqueJsonNames(Descriptors(env.reg, inst.cls))
    requires inst.Inst? && i < |Descriptors(env.reg, inst.cls)|
    ensures var d := Descriptors(env.reg, inst.cls)[i];
      && SerializeField(env, inst, d).Ok?
      && Member(SerializeInstance(env, inst).value, d.jsonPropertyName) == Ok(SerializeField(env, inst, d).value)
  {
    SerializedObject(env, inst, i);
  }

  /**
   * A portable instance serializes to a plain object, and deserializing that object
   * into the instance's class gives a `new C()` restoring every mapped property.
   */
  lemma RoundTripInstance(env: Env, inst: Value)
    requires inst.Inst? && PortableInstance(env.reg, inst)
    ensures SerializeInstance(env, inst).Ok?
    ensures var j := SerializeInstance(env, inst).value;
      && j.Obj?
      && LoopProperties(env, j, inst.cls).Ok?
      && RestoresInstance(env.reg, inst, LoopProperties(env, j, inst.cls).value)
    decreases Size(inst), 2
  {
    var cls := inst.cls;
    var ds := Descriptors(env.reg, cls);
    forall i | 0 <= i < |ds| ensures SerializeField(env, inst, ds[i]).Ok? {
      RoundTripFieldAt(env, inst, i);
    }
    SerializeFieldsSucceeds(env, inst, ds, []);
    var j := SerializeInstance(env, inst).value;
    forall i | 0 <= i < |ds| ensures ResolveField(env, j, ds[i]).Ok? {
      RoundTripFieldAt(env, inst, i);
    }
    LoopFieldsSucceeds(env, j, ds, NewInstance(env.reg, cls));
    var w := LoopProperties(env, j, cls).value;
    forall i | 0 <= i < |ds|
      ensures RestoresField(env.reg, ds[i], FieldOf(inst, ds[i].classPropertyName), Field(w.fields, ds[i].classPropertyName))
    {
      RoundTripFieldAt(env, inst, i);
      DeserializedInstance(env, j, cls, i, "");
    }
    forall k | Unmapped(ds, k) ensures Field(w.fields, k) == Field(NewInstance(env.reg, cls), k) {
      DeserializedInstance(env, j, cls, 0, k);
    }
  }

  /**
   * `deserialize(serialize(x), C)` for a portable instance `x` of `C`, in both
   * versions of the engine: scalar properties come back equal, array properties
   * element by element, nested models recursively, and unmapped properties are
   * those of `new C()`.
   */
  lemma RoundTrip(env: Env, inst: Value)
    requires inst.Inst? && PortableInstance(env.reg, inst)
    ensures Serialize(env, inst).Ok?
    ensures var back := Deserialize(env, Serialize(env, inst).value, inst.cls);
      back.Ok? && RestoresInstance(env.reg, inst, back.value)
  {
    RoundTripInstance(env, inst);
    var j := SerializeInstance(env, inst).value;
    assert Deserialize(env, j, inst.cls) == LoopProperties(env, j, inst.cls);
  }
}
