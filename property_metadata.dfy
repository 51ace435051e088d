/**
 * The alternative registry of src/lib/metadata.ts: per class, the list of mapped
 * property names and, per (class, property), one merged descriptor. Both live in
 * reflect-metadata on the class; here they are the two fields of a registry object.
 */
module PropertyMetadata {
  import opened Errors
  import opened MappingOptionsModel

  const METADATA_KEY_PROPERTY_OPTIONS := "jtsm:options"
  const METADATA_KEY_PROPERTY_LIST := "jtsm:properties"

  /** What the getters are passed: a class itself, or an instance of class `cls`. */
  datatype Subject = ClassRef(name: string) | InstanceRef(cls: string)

  /**
   * `target.constructor.name === 'Function' ? target : target.constructor`: a class's
   * constructor is `Function`, so the class itself is used; an instance's constructor
   * is its class, unless that class is itself named "Function", in which case the
   * instance is used and carries no metadata.
   */
  function Resolve(s: Subject): Option<string> {
    match s
    case ClassRef(c) => Some(c)
    case InstanceRef(c) => if c == "Function" then None else Some(c)
  }

  class PropertyRegistry {
    var lists: map<string, seq<string>>
    var options: map<(string, string), MappingOptions>

    /** Every listed class has a name on its list, and every descriptor's property is listed. */
    ghost predicate Valid()
      reads this
    {
      && (forall c :: c in lists ==> |lists[c]| > 0)
      && (forall c, p :: (c, p) in options ==> c in lists && p in lists[c])
    }

    constructor ()
      ensures lists == map[] && options == map[]
      ensures Valid()
    {
      lists := map[];
      options := map[];
    }

    function ListOf(cls: string): seq<string>
      reads this
    {
      if cls in lists then lists[cls] else []
    }

    function OptionsOf(cls: string, propertyName: string): Option<MappingOptions>
      reads this
    {
      if (cls, propertyName) in options then Some(options[(cls, propertyName)]) else None
    }

    /**
     * `setPropertyOptions`: append the name to the class's list (even when it is
     * already there), then merge the partial descriptor over the stored one or a
     * blank one. A merge that sets optional and not-null throws after the name was
     * appended; an existing descriptor has already been changed by then.
     */
    method SetPropertyOptions(cls: string, propertyName: string, p: PartialOptions) returns (thrown: Option<Error>)
      requires Valid()
      modifies this
      ensures Valid()
      ensures lists == old(lists)[cls := old(ListOf(cls)) + [propertyName]]
      ensures var merged := Assign(old(OptionsOf(cls, propertyName)).GetOr(MappingOptions("", "", "")), p);
        && thrown == (if Incompatible(merged) then Some(IncompatibleAnnotations) else None)
        && options == if Incompatible(merged) && old(OptionsOf(cls, propertyName)).None? then old(options)
                      else old(options)[(cls, propertyName) := merged]
    {
      var mappedfields := ListOf(cls);
      mappedfields := mappedfields + [propertyName];
      lists := lists[cls := mappedfields];
      var stored := OptionsOf(cls, propertyName);
      var current := if stored.Some? then stored.value else MappingOptions("", "", "");
      current := Assign(current, p);
      if stored.Some? {
        // `Object.assign` wrote into the stored descriptor.
        options := options[(cls, propertyName) := current];
      }
      if Incompatible(current) {
        return Some(IncompatibleAnnotations);
      }
      options := options[(cls, propertyName) := current];
      return None;
    }

    /** `getPropertyOptions`: `undefined` (None) when nothing was recorded. */
    function GetPropertyOptions(target: Subject, propertyName: string): Option<MappingOptions>
      reads this
    {
      match Resolve(target)
      case None => None
      case Some(c) => OptionsOf(c, propertyName)
    }

    /** `getMappedProperties`: the recorded list, or `[]`. */
    function GetMappedProperties(target: Subject): seq<string>
      reads this
    {
      match Resolve(target)
      case None => []
      case Some(c) => ListOf(c)
    }

    /** `isMapped`: whether a list was recorded. */
    predicate IsMapped(target: Subject)
      reads this
    {
      match Resolve(target)
      case None => false
      case Some(c) => c in lists
    }
  }

  /** A class never registered has no mapped properties, no descriptors and is not mapped. */
  lemma NeverRegistered(r: PropertyRegistry, c: string, propertyName: string)
    requires r.Valid() && c !in r.lists
    ensures r.GetMappedProperties(ClassRef(c)) == []
    ensures r.GetPropertyOptions(ClassRef(c), propertyName).None?
    ensures !r.IsMapped(ClassRef(c))
  {
  }

  /** A class is mapped exactly when its list of mapped properties is not empty. */
  lemma MappedIffListed(r: PropertyRegistry, s: Subject)
    requires r.Valid()
    ensures r.IsMapped(s) <==> |r.GetMappedProperties(s)| > 0
  {
  }

  /** For every class not named "Function", the three getters agree on the class and on its instances. */
  lemma ClassOrInstance(r: PropertyRegistry, c: string, propertyName: string)
    requires c != "Function"
    ensures r.GetPropertyOptions(ClassRef(c), propertyName) == r.GetPropertyOptions(InstanceRef(c), propertyName)
    ensures r.GetMappedProperties(ClassRef(c)) == r.GetMappedProperties(InstanceRef(c))
    ensures r.IsMapped(ClassRef(c)) == r.IsMapped(InstanceRef(c))
  {
  }

  /** The exception: an instance of a registered class named "Function" is not recognised. */
  lemma FunctionNamedClass(r: PropertyRegistry)
    requires "Function" in r.lists
    ensures r.IsMapped(ClassRef("Function")) && !r.IsMapped(InstanceRef("Function"))
  {
  }
}
