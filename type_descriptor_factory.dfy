/**
 * TypeDescriptorFactory: a memoising map from runtime types to their descriptors. On a miss,
 * Find builds the descriptor, registers it, and only then initializes it, so that a descriptor
 * which looks up its own type while initializing (a type that refers to itself) finds the entry
 * already there instead of building a second one.
 */
module TypeDescriptors {
  import opened Wrappers
  import opened Reflection

  /** Errors the factory throws. */
  datatype Error = ArgumentNull(paramName: string)

  /** IAttributeRegistry: member metadata the factory hands to its descriptors; opaque here. */
  class AttributeRegistry {
    constructor ()
    {
    }
  }

  /**
   * One descriptor: the type it describes, the shape Create gave it, and, once initialized,
   * the descriptors of the types it refers to, obtained from the factory that built it.
   */
  class TypeDescriptor {
    const factory: TypeDescriptorFactory
    const typeName: TypeName
    const shape: Shape
    var initialized: bool
    var nested: seq<TypeDescriptor>

    /** Builds a descriptor in its constructed state: not yet initialized, nothing resolved. */
    constructor (factory: TypeDescriptorFactory, typeName: TypeName, shape: Shape)
      ensures this.factory == factory && this.typeName == typeName && this.shape == shape
      ensures !initialized && nested == []
    {
      this.factory := factory;
      this.typeName := typeName;
      this.shape := shape;
      initialized := false;
      nested := [];
    }

    /**
     * Second phase of construction: looks up, through the owning factory, the descriptor of
     * every type this type refers to. The descriptor is already registered when this runs, so
     * a lookup of its own type (directly or through other types) returns this very object.
     */
    method Initialize()
      requires factory.Valid()
      requires typeName in factory.registeredDescriptors
      requires factory.registeredDescriptors[typeName] == this
      requires typeName in factory.initializing
      modifies factory, factory.Descriptors()
      decreases factory.Unregistered(), 3
      ensures factory.Valid()
      ensures initialized
      ensures factory.initializing == old(factory.initializing) - {typeName}
      ensures Grows(old(factory.registeredDescriptors), factory.registeredDescriptors)
      ensures forall t :: t in factory.registeredDescriptors && t !in old(factory.registeredDescriptors)
                ==> fresh(factory.registeredDescriptors[t])
      ensures unchanged(old(factory.Descriptors()) - {this})
    {
      var resolved := factory.FindAll(factory.reflection[typeName].nested);
      nested := resolved;
      initialized := true;
      factory.initializing := factory.initializing - {typeName};
    }
  }

  /** The cache after an operation keeps every entry it had before, with the same descriptor. */
  ghost predicate Grows(before: map<TypeName, TypeDescriptor>, after: map<TypeName, TypeDescriptor>) {
    before.Keys <= after.Keys && forall t :: t in before ==> after[t] == before[t]
  }

  class TypeDescriptorFactory {
    const attributeRegistry: AttributeRegistry
    /** The reflection data of the loaded types, which the C# code reaches through each Type. */
    const reflection: Metadata
    var registeredDescriptors: map<TypeName, TypeDescriptor>
    /** The types whose descriptor is registered but whose Initialize has not yet returned. */
    ghost var initializing: set<TypeName>

    ghost function Descriptors(): set<TypeDescriptor>
      reads this
    {
      registeredDescriptors.Values
    }

    /** The loaded types that have no descriptor yet; every miss in Find removes one. */
    ghost function Unregistered(): set<TypeName>
      reads this
    {
      reflection.Keys - registeredDescriptors.Keys
    }

    /**
     * The cache invariant: every entry is a descriptor this factory built for that key with the
     * shape Classify gives it; it is initialized exactly when its Initialize has returned, and
     * an initialized descriptor refers to the cached descriptors of the types it mentions.
     */
    ghost predicate Valid()
      reads this, Descriptors()
    {
      && Closed(reflection)
      && registeredDescriptors.Keys <= reflection.Keys
      && initializing <= registeredDescriptors.Keys
      && (forall t :: t in registeredDescriptors ==>
            && registeredDescriptors[t].factory == this
            && registeredDescriptors[t].typeName == t
            && registeredDescriptors[t].shape == Classify(reflection[t])
            && (registeredDescriptors[t].initialized <==> t !in initializing))
      && (forall t :: t in registeredDescriptors && t !in initializing ==> Resolved(t))
    }

    /** The descriptor cached for `t` refers to the cached descriptors of the types `t` mentions. */
    ghost predicate Resolved(t: TypeName)
      requires t in registeredDescriptors && t in reflection
      reads this, registeredDescriptors[t]
    {
      ResolvedIn(registeredDescriptors, t)
    }

    /** The descriptor `cache` holds for `t` refers to the descriptors `cache` holds for the types `t` mentions. */
    ghost predicate ResolvedIn(cache: map<TypeName, TypeDescriptor>, t: TypeName)
      requires t in cache && t in reflection
      reads cache[t]
    {
      var names := reflection[t].nested;
      var d := cache[t];
      && |d.nested| == |names|
      && forall i :: 0 <= i < |names| ==> names[i] in cache && d.nested[i] == cache[names[i]]
    }

    /** Adding entries to the cache keeps an existing descriptor's references resolved. */
    lemma ResolvedInGrows(cache: map<TypeName, TypeDescriptor>, cache': map<TypeName, TypeDescriptor>, t: TypeName)
      requires t in cache && t in reflection && Grows(cache, cache')
      requires ResolvedIn(cache, t)
      ensures t in cache' && ResolvedIn(cache', t)
    {
    }

    /** The constructor proper, reached once the registry is known not to be null. */
    constructor (attributeRegistry: AttributeRegistry, reflection: Metadata)
      requires Closed(reflection)
      ensures Valid()
      ensures this.attributeRegistry == attributeRegistry && this.reflection == reflection
      ensures registeredDescriptors == map[] && initializing == {}
    {
      this.attributeRegistry := attributeRegistry;
      this.reflection := reflection;
      registeredDescriptors := map[];
      initializing := {};
    }

    /**
     * `new TypeDescriptorFactory(attributeRegistry)`: throws ArgumentNullException for a null
     * registry; otherwise an empty factory that keeps exactly that registry.
     */
    static method New(attributeRegistry: AttributeRegistry?, reflection: Metadata)
      returns (r: Result<TypeDescriptorFactory, Error>)
      requires Closed(reflection)
      ensures r.Err? <==> attributeRegistry == null
      ensures r.Err? ==> r.error == ArgumentNull("attributeRegistry")
      ensures r.Ok? ==> && fresh(r.value) && r.value.Valid()
                        && r.value.AttributeRegistry() == attributeRegistry
                        && r.value.reflection == reflection
                        && r.value.registeredDescriptors == map[] && r.value.initializing == {}
    {
      if attributeRegistry == null {
        return Err(ArgumentNull("attributeRegistry"));
      }
      var f := new TypeDescriptorFactory(attributeRegistry, reflection);
      return Ok(f);
    }

    /** `new TypeDescriptorFactory()`: an empty factory over a fresh registry of its own. */
    static method NewDefault(reflection: Metadata) returns (f: TypeDescriptorFactory)
      requires Closed(reflection)
      ensures fresh(f) && fresh(f.AttributeRegistry()) && f.Valid()
      ensures f.reflection == reflection && f.registeredDescriptors == map[] && f.initializing == {}
    {
      var registry := new AttributeRegistry();
      f := new TypeDescriptorFactory(registry, reflection);
    }

    /** The registry the factory was built with; it is a constant, so it never changes. */
    function AttributeRegistry(): (registry: AttributeRegistry)
      ensures registry == attributeRegistry
    {
      attributeRegistry
    }

    /**
     * Returns the descriptor of a type: null for a null type, the cached descriptor on a hit,
     * and otherwise a newly built one, registered before it is initialized.
     */
    method Find(t: Option<TypeName>) returns (d: TypeDescriptor?)
      requires Valid()
      requires t.Some? ==> t.value in reflection
      modifies this, Descriptors()
      decreases Unregistered(), 1
      ensures Valid()
      ensures initializing == old(initializing)
      ensures Grows(old(registeredDescriptors), registeredDescriptors)
      ensures forall k :: k in registeredDescriptors && k !in old(registeredDescriptors)
                ==> fresh(registeredDescriptors[k])
      ensures unchanged(old(Descriptors()))
      ensures t.None? ==> d == null && unchanged(this)
      ensures t.Some? ==> d != null && t.value in registeredDescriptors && registeredDescriptors[t.value] == d
      ensures t.Some? && t.value in old(registeredDescriptors) ==> unchanged(this)
      ensures t.Some? && t.value !in old(registeredDescriptors) ==> fresh(d) && d.initialized
      ensures d != null ==> d.typeName == t.value && d.shape == Classify(reflection[t.value])
      ensures d != null && old(initializing) == {} ==> d.initialized
    {
      if t.None? {
        return null;
      }
      var key := t.value;
      ghost var unregistered := Unregistered();
      if key in registeredDescriptors {
        d := registeredDescriptors[key];
        return;
      }
      d := Create(key);
      Add(key, d);
      assert key in unregistered && Unregistered() == unregistered - {key};
      d.Initialize();
    }

    /**
     * Looks up each of `names` in turn, as a descriptor's initialization does for the types it
     * refers to; the lookups may build and register further descriptors.
     */
    method FindAll(names: seq<TypeName>) returns (resolved: seq<TypeDescriptor>)
      requires Valid()
      requires forall i :: 0 <= i < |names| ==> names[i] in reflection
      modifies this, Descriptors()
      decreases Unregistered(), 2
      ensures Valid()
      ensures initializing == old(initializing)
      ensures Grows(old(registeredDescriptors), registeredDescriptors)
      ensures forall k :: k in registeredDescriptors && k !in old(registeredDescriptors)
                ==> fresh(registeredDescriptors[k])
      ensures unchanged(old(Descriptors()))
      ensures |resolved| == |names|
      ensures forall i :: 0 <= i < |names| ==>
                names[i] in registeredDescriptors && resolved[i] == registeredDescriptors[names[i]]
    {
      resolved := [];
      for i := 0 to |names|
        invariant Valid()
        invariant initializing == old(initializing)
        invariant Grows(old(registeredDescriptors), registeredDescriptors)
        invariant forall k :: k in registeredDescriptors && k !in old(registeredDescriptors)
                    ==> fresh(registeredDescriptors[k])
        invariant unchanged(old(Descriptors()))
        invariant |resolved| == i
        invariant forall j :: 0 <= j < i ==>
                    names[j] in registeredDescriptors && resolved[j] == registeredDescriptors[names[j]]
      {
        var d := Find(Some(names[i]));
        resolved := resolved + [d];
      }
    }

    /**
     * Dictionary.Add: inserts an entry whose key must not be present yet (Add throws
     * otherwise). The descriptor is one Create has just built, so it enters the cache in its
     * constructed state, and the cache invariant still holds.
     */
    method Add(key: TypeName, descriptor: TypeDescriptor)
      requires Valid()
      requires key in reflection && key !in registeredDescriptors
      requires descriptor.factory == this && descriptor.typeName == key
      requires descriptor.shape == Classify(reflection[key]) && !descriptor.initialized
      modifies this
      ensures Valid()
      ensures registeredDescriptors == old(registeredDescriptors)[key := descriptor]
      ensures initializing == old(initializing) + {key}
    {
      ghost var before := registeredDescriptors;
      registeredDescriptors := registeredDescriptors[key := descriptor];
      initializing := initializing + {key};
      forall k | k in registeredDescriptors && k !in initializing
        ensures Resolved(k)
      {
        ResolvedInGrows(before, registeredDescriptors, k);
      }
    }

    /**
     * Builds, but does not initialize or register, the descriptor of a type, with the shape the
     * priority chain picks. It has no modifies clause, so it cannot touch the cache.
     */
    method Create(typeName: TypeName) returns (d: TypeDescriptor)
      requires typeName in reflection
      ensures fresh(d)
      ensures d.factory == this && d.typeName == typeName && d.shape == Classify(reflection[typeName])
      ensures !d.initialized && d.nested == []
    {
      d := new TypeDescriptor(this, typeName, Classify(reflection[typeName]));
    }
  }

  /**
   * Looking up `int` and then `List<int>`: a primitive, then a collection whose element
   * descriptor is the very `int` descriptor cached by the first lookup; a second lookup
   * returns the same objects.
   */
  method CollectionOfPrimitiveScenario()
  {
    var reflection := map[
      "Int32" := TypeInfo(true, false, false, false, false, []),
      "List<Int32>" := TypeInfo(false, false, true, false, false, ["Int32"])];
    var factory := TypeDescriptorFactory.NewDefault(reflection);
    var int32 := factory.Find(Some("Int32"));
    var list := factory.Find(Some("List<Int32>"));
    assert int32.shape == Primitive && list.shape == Collection;
    assert list.nested[0] == int32;
    var again := factory.Find(Some("Int32"));
    assert again == int32;
  }

  /**
   * A dictionary from strings to a custom class: its key descriptor is primitive, its value
   * descriptor is an object descriptor that a later lookup of the class returns again.
   */
  method DictionaryScenario()
  {
    var reflection := map[
      "String" := TypeInfo(true, false, false, false, false, []),
      "Custom" := TypeInfo(false, false, false, false, false, []),
      "Dictionary<String,Custom>" := TypeInfo(false, true, true, false, false, ["String", "Custom"])];
    var factory := TypeDescriptorFactory.NewDefault(reflection);
    var dictionary := factory.Find(Some("Dictionary<String,Custom>"));
    assert dictionary.shape == Dictionary;
    assert dictionary.nested[0].shape == Primitive && dictionary.nested[1].shape == Object;
    var custom := factory.Find(Some("Custom"));
    assert custom == dictionary.nested[1];
  }

  /**
   * A node class with a member of type `List<Node>`: the lookup terminates, and the graph of
   * descriptors closes on itself, the list's element descriptor being the node's descriptor.
   */
  method SelfReferentialScenario()
  {
    var reflection := map[
      "Node" := TypeInfo(false, false, false, false, false, ["List<Node>"]),
      "List<Node>" := TypeInfo(false, false, true, false, false, ["Node"])];
    var factory := TypeDescriptorFactory.NewDefault(reflection);
    var node := factory.Find(Some("Node"));
    assert node.shape == Object && node.initialized;
    var list := node.nested[0];
    assert list.shape == Collection && list.initialized;
    assert list.nested[0] == node;
    var none := factory.Find(None);
    assert none == null;
  }

  /** Two lookups of one type, whatever the type and the cache, return the identical descriptor. */
  method FindTwice(factory: TypeDescriptorFactory, t: TypeName)
    returns (first: TypeDescriptor?, second: TypeDescriptor?)
    requires factory.Valid() && t in factory.reflection
    modifies factory, factory.Descriptors()
    ensures first != null && first == second
    ensures t in factory.registeredDescriptors && first == factory.registeredDescriptors[t]
  {
    first := factory.Find(Some(t));
    second := factory.Find(Some(t));
  }

  /**
   * A lookup of a type while that type's descriptor is still initializing (a re-entrant call
   * from its Initialize) returns the cached, still constructed descriptor and builds nothing.
   */
  method ReentrantFind(factory: TypeDescriptorFactory, t: TypeName) returns (d: TypeDescriptor?)
    requires factory.Valid() && t in factory.initializing
    modifies factory, factory.Descriptors()
    ensures d == old(factory.registeredDescriptors[t]) && !d.initialized
    ensures unchanged(factory) && unchanged(old(factory.Descriptors()))
  {
    d := factory.Find(Some(t));
  }
}
