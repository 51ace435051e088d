/** What the decorators of src/lib/decorators.ts promise about the store they leave. */
module DecoratorProperties {
  import opened Errors
  import opened Assoc
  import opened MappingOptionsModel
  import opened Reflection
  import opened Decorators

  lemma OptionsKeyHasPrefix(propertyName: string)
    ensures StartsWith(OptionsKey(propertyName), MAPPING_OPTIONS)
  {
  }

  /**
   * A merge stores the stored descriptor (a blank one the first time) overwritten by
   * the supplied fields, and throws exactly when that leaves optional and not-null
   * both set; no other key of any target changes.
   */
  lemma MergeStores(meta: Metadata, target: Target, propertyName: string, p: PartialOptions, t: Target, k: string)
    ensures var key := OptionsKey(propertyName);
      var before := StoredOptions(meta, target, key);
      var merged := Assign(before.GetOr(Blank), p);
      var e := MergeOptions(meta, target, propertyName, p);
      && (e.thrown.Some? <==> Incompatible(merged))
      && (e.thrown.Some? ==> e.thrown.value == IncompatibleAnnotations)
      && StoredOptions(e.meta, target, key) == (if e.thrown.None? || before.Some? then Some(merged) else None)
      && ((t, k) != (target, key) ==> GetMetadata(e.meta, t, k) == GetMetadata(meta, t, k))
  {
    var key := OptionsKey(propertyName);
    var e := MergeOptions(meta, target, propertyName, p);
    if t != target {
      assert TableOf(e.meta, t) == TableOf(meta, t);
    }
  }

  /** Two successful merges: the later one's supplied fields win, the rest come from the earlier. */
  lemma LastWriterWins(meta: Metadata, target: Target, propertyName: string, p1: PartialOptions, p2: PartialOptions)
    requires MergeOptions(meta, target, propertyName, p1).thrown.None?
    requires MergeOptions(MergeOptions(meta, target, propertyName, p1).meta, target, propertyName, p2).thrown.None?
    ensures var key := OptionsKey(propertyName);
      var last := MergeOptions(MergeOptions(meta, target, propertyName, p1).meta, target, propertyName, p2);
      StoredOptions(last.meta, target, key) == Some(Assign(Assign(StoredOptions(meta, target, key).GetOr(Blank), p1), p2))
  {
    var e1 := MergeOptions(meta, target, propertyName, p1);
    MergeStores(meta, target, propertyName, p1, target, OptionsKey(propertyName));
    MergeStores(e1.meta, target, propertyName, p2, target, OptionsKey(propertyName));
  }

  /** `@Optional` and `@NotNull` on one property: the second of the two throws, whichever it is. */
  lemma OptionalAndNotNullClash(meta: Metadata, cls: string, propertyName: string)
    ensures var e1 := MergeOptions(meta, Prototype(cls), propertyName, PartialOptions(isOptional := Some(true)));
      e1.thrown.None? ==>
        MergeOptions(e1.meta, Prototype(cls), propertyName, PartialOptions(notNull := Some(true))).thrown == Some(IncompatibleAnnotations)
    ensures var e1 := MergeOptions(meta, Prototype(cls), propertyName, PartialOptions(notNull := Some(true)));
      e1.thrown.None? ==>
        MergeOptions(e1.meta, Prototype(cls), propertyName, PartialOptions(isOptional := Some(true))).thrown == Some(IncompatibleAnnotations)
  {
    var key := OptionsKey(propertyName);
    MergeStores(meta, Prototype(cls), propertyName, PartialOptions(isOptional := Some(true)), Prototype(cls), key);
    MergeStores(meta, Prototype(cls), propertyName, PartialOptions(notNull := Some(true)), Prototype(cls), key);
    var a := MergeOptions(meta, Prototype(cls), propertyName, PartialOptions(isOptional := Some(true)));
    var b := MergeOptions(meta, Prototype(cls), propertyName, PartialOptions(notNull := Some(true)));
    MergeStores(a.meta, Prototype(cls), propertyName, PartialOptions(notNull := Some(true)), Prototype(cls), key);
    MergeStores(b.meta, Prototype(cls), propertyName, PartialOptions(isOptional := Some(true)), Prototype(cls), key);
  }

  /**
   * `@JsonProperty`'s partial descriptor: a type array must have exactly one element,
   * which becomes the type with `isArray` set; the JSON name defaults to the
   * property's name; the class name is the decorated class's.
   */
  lemma JsonPropertyUnwraps(cls: string, prop: string, expectedType: TypeArg, jsonPropertyName: Option<string>)
    ensures var r := JsonPropertyOptions(cls, prop, expectedType, jsonPropertyName);
      && (r.Err? <==> expectedType.TypeArray? && |expectedType.elems| != 1)
      && (r.Err? ==> r.error == TypeArrayLength)
      && (r.Ok? ==>
            && r.value.isArray == Some(expectedType.TypeArray?)
            && r.value.expectedJsonType == Some(match expectedType case NoType => UndefinedType case Single(t) => t case TypeArray(ts) => ts[0])
            && r.value.jsonPropertyName == Some(if jsonPropertyName.Some? then jsonPropertyName.value else prop)
            && r.value.className == Some(cls) && r.value.classPropertyName == Some(prop)
            && r.value.isOptional.None? && r.value.notNull.None? && r.value.customMapper.None? && r.value.overrideInitValue.None?)
  {
  }

  // ------------------------------------------------------------ _JsonObject

  /** The push-down throws exactly when some descriptor was never given a class name. */
  lemma {:induction false} PushDownThrows(meta: Metadata, cls: string, es: seq<Entry<string, MappingOptions>>, ovr: Option<bool>)
    decreases |es|
    ensures var e := PushDown(meta, cls, es, ovr);
      && (e.thrown.Some? <==> exists i :: 0 <= i < |es| && es[i].val.className == "")
      && (e.thrown.Some? ==> e.thrown.value == ModifierWithoutJsonProperty)
  {
    if es != [] && es[0].val.className != "" {
      var md := Override(es[0].val, ovr);
      var shared := if ovr.Some? then DefineMetadata(meta, Prototype(cls), es[0].key, Options(md)) else meta;
      PushDownThrows(DefineMetadata(shared, Constructor(cls), es[0].key, Options(md)), cls, es[1..], ovr);
      assert forall i :: 0 < i < |es| ==> es[i] == es[1..][i - 1];
      if e : nat :| 0 < e < |es| && es[e].val.className == "" {
        assert es[1..][e - 1].val.className == "";
      }
    }
  }

  /** Keys the push-down does not visit keep their metadata on every target. */
  lemma {:induction false} PushDownKeepsOthers(meta: Metadata, cls: string, es: seq<Entry<string, MappingOptions>>, ovr: Option<bool>, t: Target, k: string)
    requires k !in Keys(es)
    decreases |es|
    ensures GetMetadata(PushDown(meta, cls, es, ovr).meta, t, k) == GetMetadata(meta, t, k)
  {
    if es != [] && es[0].val.className != "" {
      assert Keys(es) == [es[0].key] + Keys(es[1..]);
      var md := Override(es[0].val, ovr);
      var shared := if ovr.Some? then DefineMetadata(meta, Prototype(cls), es[0].key, Options(md)) else meta;
      var next := DefineMetadata(shared, Constructor(cls), es[0].key, Options(md));
      PushDownKeepsOthers(next, cls, es[1..], ovr, t, k);
      if ovr.Some? {
        DefineKeepsOther(meta, Prototype(cls), es[0].key, Options(md), t, k);
      }
      DefineKeepsOther(shared, Constructor(cls), es[0].key, Options(md), t, k);
    }
  }

  /**
   * A completed push-down leaves every descriptor on the class, with
   * `overrideInitValue` replaced by the class-level value when one is given and
   * untouched otherwise.
   */
  lemma {:induction false} PushDownCopies(meta: Metadata, cls: string, es: seq<Entry<string, MappingOptions>>, ovr: Option<bool>, i: nat)
    requires Distinct(Keys(es)) && i < |es|
    requires PushDown(meta, cls, es, ovr).thrown.None?
    decreases |es|
    ensures GetMetadata(PushDown(meta, cls, es, ovr).meta, Constructor(cls), es[i].key) == Some(Options(Override(es[i].val, ovr)))
    ensures ovr.None? ==> Override(es[i].val, ovr) == es[i].val
  {
    if i == 0 {
      PushDownCopiesFirst(meta, cls, es, ovr);
    } else {
      var next := PushDownStep(meta, cls, es, ovr);
      assert Distinct(Keys(es[1..])) && es[1..][i - 1] == es[i] by {
        DistinctKeysTail(es);
        TailAt(es, i);
      }
      PushDownCopies(next, cls, es[1..], ovr, i - 1);
    }
  }

  /** One completed step of the push-down, as the store it leaves for the rest. */
  lemma PushDownStep(meta: Metadata, cls: string, es: seq<Entry<string, MappingOptions>>, ovr: Option<bool>) returns (next: Metadata)
    requires es != [] && PushDown(meta, cls, es, ovr).thrown.None?
    ensures PushDown(meta, cls, es, ovr) == PushDown(next, cls, es[1..], ovr)
  {
    var md := Override(es[0].val, ovr);
    var shared := if ovr.Some? then DefineMetadata(meta, Prototype(cls), es[0].key, Options(md)) else meta;
    next := DefineMetadata(shared, Constructor(cls), es[0].key, Options(md));
  }

  /** The first descriptor is defined on the class and no later step touches its key. */
  lemma PushDownCopiesFirst(meta: Metadata, cls: string, es: seq<Entry<string, MappingOptions>>, ovr: Option<bool>)
    requires Distinct(Keys(es)) && es != []
    requires PushDown(meta, cls, es, ovr).thrown.None?
    ensures GetMetadata(PushDown(meta, cls, es, ovr).meta, Constructor(cls), es[0].key) == Some(Options(Override(es[0].val, ovr)))
  {
    var md := Override(es[0].val, ovr);
    var shared := if ovr.Some? then DefineMetadata(meta, Prototype(cls), es[0].key, Options(md)) else meta;
    var next := DefineMetadata(shared, Constructor(cls), es[0].key, Options(md));
    assert PushDown(meta, cls, es, ovr) == PushDown(next, cls, es[1..], ovr);
    DistinctKeysTail(es);
    PushDownKeepsOthers(next, cls, es[1..], ovr, Constructor(cls), es[0].key);
  }

  /** A descriptor stored on a target is among that target's descriptor entries. */
  lemma {:induction false} StoredIsListed(t: Table, k: string, o: MappingOptions)
    requires Get(t, k) == Some(Options(o)) && StartsWith(k, MAPPING_OPTIONS)
    decreases |t|
    ensures Entry(k, o) in DescriptorEntries(t)
  {
    if t[0].key != k {
      StoredIsListed(t[1..], k, o);
    }
  }

  /** The descriptor entries of a table with distinct keys have distinct keys. */
  lemma {:induction false} DescriptorEntriesDistinct(t: Table)
    requires Distinct(Keys(t))
    ensures Distinct(Keys(DescriptorEntries(t)))
  {
    if t != [] {
      DistinctKeysTail(t);
      DescriptorEntriesDistinct(t[1..]);
      var rest := DescriptorEntries(t[1..]);
      if StartsWith(t[0].key, MAPPING_OPTIONS) && t[0].val.Options? {
        var r := [Entry(t[0].key, t[0].val.options)] + rest;
        forall i | 0 <= i < |rest| ensures rest[i].key != t[0].key {
          var e := Entry(rest[i].key, Options(rest[i].val));
          var j :| 0 <= j < |t[1..]| && t[1..][j] == e;
          assert Keys(t[1..])[j] == e.key;
        }
        forall i, j | 0 <= i < j < |Keys(r)| ensures Keys(r)[i] != Keys(r)[j] {
          assert Keys(r)[j] == Keys(rest)[j - 1];
          if i > 0 {
            assert Keys(r)[i] == Keys(rest)[i - 1];
          }
        }
      }
    }
  }

  /**
   * A completed `@JsonObject` leaves every descriptor of the prototype on the class,
   * with the class-level `overrideInitValues` applied when it is given.
   */
  lemma JsonObjectPushesDown(meta: Metadata, cls: string, options: ClassMappingOptions, k: string, o: MappingOptions)
    requires Distinct(Keys(TableOf(meta, Prototype(cls))))
    requires GetMetadata(meta, Prototype(cls), k) == Some(Options(o)) && StartsWith(k, MAPPING_OPTIONS)
    requires JsonObjectEffect(meta, cls, options).thrown.None?
    ensures GetMetadata(JsonObjectEffect(meta, cls, options).meta, Constructor(cls), k) == Some(Options(Override(o, options.overrideInitValues)))
  {
    var marked := DefineMetadata(meta, Constructor(cls), JSON_OBJECT, Marker("__json_object__"));
    var t := TableOf(marked, Prototype(cls));
    assert t == TableOf(meta, Prototype(cls));
    var es := DescriptorEntries(t);
    DescriptorEntriesDistinct(t);
    StoredIsListed(t, k, o);
    var i :| 0 <= i < |es| && es[i] == Entry(k, o);
    PushDownCopies(marked, cls, es, options.overrideInitValues, i);
  }

  /** The class is marked mapped even when the push-down then throws. */
  lemma JsonObjectMarksClass(meta: Metadata, cls: string, options: ClassMappingOptions)
    ensures HasMetadata(JsonObjectEffect(meta, cls, options).meta, Constructor(cls), JSON_OBJECT)
  {
    var marked := DefineMetadata(meta, Constructor(cls), JSON_OBJECT, Marker("__json_object__"));
    var es := DescriptorEntries(TableOf(marked, Prototype(cls)));
    MarkerUnprefixed();
    UnprefixedNotListed(es, MAPPING_OPTIONS, JSON_OBJECT);
    PushDownKeepsOthers(marked, cls, es, options.overrideInitValues, Constructor(cls), JSON_OBJECT);
  }

  /**
   * `@Optional` (or any other modifier) on a property that never got `@JsonProperty`
   * makes the class decorator throw.
   */
  lemma ModifierWithoutJsonPropertyThrows(meta: Metadata, cls: string, propertyName: string, p: PartialOptions, options: ClassMappingOptions)
    requires StoredOptions(meta, Prototype(cls), OptionsKey(propertyName)).None?
    requires p.className.None?
    requires MergeOptions(meta, Prototype(cls), propertyName, p).thrown.None?
    ensures JsonObjectEffect(MergeOptions(meta, Prototype(cls), propertyName, p).meta, cls, options).thrown == Some(ModifierWithoutJsonProperty)
  {
    var key := OptionsKey(propertyName);
    var m1 := MergeOptions(meta, Prototype(cls), propertyName, p).meta;
    MergeStores(meta, Prototype(cls), propertyName, p, Prototype(cls), key);
    var o := Assign(Blank, p);
    var marked := DefineMetadata(m1, Constructor(cls), JSON_OBJECT, Marker("__json_object__"));
    assert GetMetadata(marked, Prototype(cls), key) == Some(Options(o));
    OptionsKeyHasPrefix(propertyName);
    StoredIsListed(TableOf(marked, Prototype(cls)), key, o);
    var es := DescriptorEntries(TableOf(marked, Prototype(cls)));
    var w :| 0 <= w < |es| && es[w] == Entry(key, o);
    PushDownThrows(marked, cls, es, options.overrideInitValues);
  }
}
