/**
 * The classification half of TypeDescriptorFactory: what reflection tells the factory about a
 * runtime type, and the fixed priority chain of TypeDescriptorFactory.Create that picks one of
 * six descriptor shapes for it.
 */
module Reflection {

  /** The identity of a runtime type; the key of the descriptor cache. */
  type TypeName = string

  /**
   * What reflection reports about one runtime type: the five shape predicates Create consults
   * (PrimitiveDescriptor.IsPrimitive, DictionaryDescriptor.IsDictionary,
   * CollectionDescriptor.IsCollection, Type.IsArray, NullableDescriptor.IsNullable), whose
   * reflection-based bodies are not part of this model, and the types that this type's
   * descriptor looks up through the factory while it initializes (element, key, value, member
   * types).
   */
  datatype TypeInfo = TypeInfo(
    isPrimitive: bool,
    isDictionary: bool,
    isCollection: bool,
    isArray: bool,
    isNullable: bool,
    nested: seq<TypeName>)

  /** The reflection data of every loaded type. */
  type Metadata = map<TypeName, TypeInfo>

  /** Every type mentioned by a loaded type is itself loaded. */
  ghost predicate Closed(m: Metadata) {
    forall t, i :: t in m && 0 <= i < |m[t].nested| ==> m[t].nested[i] in m
  }

  /** The six descriptor classes Create can instantiate. */
  datatype Shape = Primitive | Dictionary | Collection | Array | Nullable | Object

  /** Whether the shape's own predicate accepts the type; the object shape accepts every type. */
  predicate Matches(info: TypeInfo, s: Shape) {
    match s
    case Primitive => info.isPrimitive
    case Dictionary => info.isDictionary
    case Collection => info.isCollection
    case Array => info.isArray
    case Nullable => info.isNullable
    case Object => true
  }

  /** Position of a shape in Create's chain: a lower rank is tried first. */
  function Rank(s: Shape): nat {
    match s
    case Primitive => 0
    case Dictionary => 1
    case Collection => 2
    case Array => 3
    case Nullable => 4
    case Object => 5
  }

  /** Create's chain written as data, in the order it is tried. */
  const PriorityOrder: seq<Shape> := [Primitive, Dictionary, Collection, Array, Nullable, Object]

  /**
   * The shape TypeDescriptorFactory.Create picks: the first shape, in priority order, whose
   * predicate accepts the type.
   */
  function Classify(info: TypeInfo): (s: Shape)
    ensures Matches(info, s)
    ensures forall s' :: Rank(s') < Rank(s) ==> !Matches(info, s')
  {
    if info.isPrimitive then Primitive
    else if info.isDictionary then Dictionary
    else if info.isCollection then Collection
    else if info.isArray then Array
    else if info.isNullable then Nullable
    else Object
  }

  /** Reference definition: the index of the first shape in `order` that accepts the type. */
  function FirstMatchIndex(info: TypeInfo, order: seq<Shape>): (k: nat)
    requires Object in order
    ensures k < |order| && Matches(info, order[k])
    ensures forall j :: 0 <= j < k ==> !Matches(info, order[j])
  {
    if Matches(info, order[0]) then 0
    else 1 + FirstMatchIndex(info, order[1..])
  }

  /** Create's if/else chain agrees with the data-driven priority list. */
  lemma ClassifyIsFirstMatch(info: TypeInfo)
    ensures Classify(info) == PriorityOrder[FirstMatchIndex(info, PriorityOrder)]
  {
    var k := FirstMatchIndex(info, PriorityOrder);
    var s := PriorityOrder[k];
    forall s': Shape | Rank(s') < Rank(s)
      ensures !Matches(info, s')
    {
      assert PriorityOrder[Rank(s')] == s';
    }
    ClassifyPicksExactlyOne(info, s);
  }

  /**
   * Classify picks exactly one shape: a shape is the classification if and only if its
   * predicate accepts the type and no earlier predicate does.
   */
  lemma ClassifyPicksExactlyOne(info: TypeInfo, s: Shape)
    ensures s == Classify(info) <==>
            (Matches(info, s) && forall s' :: Rank(s') < Rank(s) ==> !Matches(info, s'))
  {
  }

  /** A type is described as a primitive exactly when it is primitive, whatever else it satisfies. */
  lemma PrimitiveAlwaysWins(info: TypeInfo)
    ensures Classify(info) == Primitive <==> info.isPrimitive
  {
  }

  /** A (non-primitive) dictionary is described as a dictionary even though it is a collection too. */
  lemma DictionaryBeforeCollection(info: TypeInfo)
    requires !info.isPrimitive && info.isDictionary && info.isCollection
    ensures Classify(info) == Dictionary
  {
  }

  /** The object shape is chosen exactly for the types that no other predicate accepts. */
  lemma FallbackIsObject(info: TypeInfo)
    ensures Classify(info) == Object <==>
            !info.isPrimitive && !info.isDictionary && !info.isCollection &&
            !info.isArray && !info.isNullable
  {
  }
}
