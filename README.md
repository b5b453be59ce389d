# Type descriptor factory and descriptor sets, modelled in Dafny

This project models two pieces of the Xenko engine.

**TypeDescriptorFactory** (`Reflection` and `TypeDescriptors` modules) maps a runtime type to the
descriptor that serialization and reflection code use to inspect it. Its parts are modelled
as follows.

- `Create` runs a fixed priority chain over six shapes, and the first match wins:
  primitive, dictionary, collection, array, nullable, and object as the fallback. It is
  `Reflection.Classify`, a pure function.
- `Find` is imperative. It looks in the cache (`registeredDescriptors`), a `map` field the
  class owns. On a miss it builds the descriptor and adds it to the cache *before* it calls
  the descriptor's `Initialize`. A type whose descriptor looks up its own type while
  initializing therefore finds the entry already there. That lookup gets back the same
  object, in its constructed state, and nothing new is built.
- A descriptor is a class with two phases. The constructor leaves it *constructed*.
  `Initialize` looks up, through the factory, every type this type mentions (element, key,
  value or member types), stores those descriptors, and marks it *initialized*. These
  lookups are recursive calls of `Find`.
- Termination follows from the set of loaded types that still have no descriptor. Each miss
  removes one type from that set. A self-referential type therefore resolves to a finite
  descriptor graph that closes on itself.
- The cache invariant `Valid` has these parts:
  - the reflection table is closed (`Closed`): every type it mentions is in it;
  - every cached key is a loaded type of that table;
  - every entry is a descriptor this factory built for that key, with the shape `Classify`
    gives it;
  - a descriptor is initialized exactly when its `Initialize` has returned; the ghost set
    `initializing` holds the keys whose `Initialize` is still running;
  - an initialized descriptor refers to the *cached* descriptors of the types it mentions.
- Separately from `Valid`, the two-state postconditions of `Find`, `FindAll` and `Initialize`
  say that entries are only ever added (`Grows`), never replaced or removed.

**DescriptorSet** (`Graphics` module) is a window onto a descriptor pool's shared entry array.
It keeps the pool's array itself, not a copy, and the start offset the pool allocated, which
is -1 when allocation failed. Each setter writes one cell, at `DescriptorStartOffset + slot`.
`SetConstantBuffer` replaces the whole entry. The other four setters change only the entry's
`Value`, and its `Offset` and `Size` survive. Each setter is specified by `WithValue` or
`WithEntry` on the array's contents. Lemmas about those two functions state how the writes
combine.

The runtime's reflection is an input. `Metadata` maps every loaded type name to its five
shape predicates and to the types it mentions. The C# code reaches this data through each
`Type` object. A map is used here so that a type can mention itself.

Client methods `TypeDescriptors.CollectionOfPrimitiveScenario`,
`TypeDescriptors.DictionaryScenario`, `TypeDescriptors.SelfReferentialScenario` and
`Graphics.SharedPoolScenario` call the factory and the descriptor set on small concrete
inputs. Proved facts about them:

- An element descriptor is the very object an earlier lookup cached.
- A repeated `Find` returns the same object.
- A node type whose member is `List<Node>` resolves to a graph whose list element is the
  node descriptor itself.
- Writes through two sets from one pool land in the pool's own array.

## Model

| member | source | states |
|---|---|---|
| Reflection.Classify | sources/common/core/SiliconStudio.Core.Design/Reflection/TypeDescriptorFactory.cs:82-112 | The chosen shape's predicate accepts the type, and no shape earlier in the priority order accepts it. |
| Reflection.FirstMatchIndex | sources/common/core/SiliconStudio.Core.Design/Reflection/TypeDescriptorFactory.cs:82-112 | Reference definition of the chain as an ordered list. It returns the index of the first shape in the list whose predicate accepts the type. |
| Reflection.ClassifyIsFirstMatch | sources/common/core/SiliconStudio.Core.Design/Reflection/TypeDescriptorFactory.cs:82-112 | The if/else chain of Create picks the same shape as the first list entry that matches, for the list Primitive, Dictionary, Collection, Array, Nullable, Object. |
| Reflection.ClassifyPicksExactlyOne | sources/common/core/SiliconStudio.Core.Design/Reflection/TypeDescriptorFactory.cs:82-112 | A shape is the classification if and only if its predicate accepts the type and no earlier predicate does. |
| Reflection.PrimitiveAlwaysWins | sources/common/core/SiliconStudio.Core.Design/Reflection/TypeDescriptorFactory.cs:84-87 | A type is classified Primitive exactly when it is primitive, whatever other predicates it also satisfies. |
| Reflection.DictionaryBeforeCollection | sources/common/core/SiliconStudio.Core.Design/Reflection/TypeDescriptorFactory.cs:88-97 | A non-primitive type that is both a dictionary and a collection is classified Dictionary. |
| Reflection.FallbackIsObject | sources/common/core/SiliconStudio.Core.Design/Reflection/TypeDescriptorFactory.cs:107-111 | A type is classified Object exactly when no other predicate accepts it. |
| TypeDescriptors.TypeDescriptorFactory.New | sources/common/core/SiliconStudio.Core.Design/Reflection/TypeDescriptorFactory.cs:33-37 | A null registry makes construction fail with ArgumentNull("attributeRegistry"). Otherwise the result is a fresh, empty, valid factory, and its AttributeRegistry is exactly the registry passed in. |
| TypeDescriptors.TypeDescriptorFactory.AttributeRegistry | sources/common/core/SiliconStudio.Core.Design/Reflection/TypeDescriptorFactory.cs:66-71 | The getter returns the constant registry field, so it is always the registry `New` was given. |
| TypeDescriptors.TypeDescriptorFactory.NewDefault | sources/common/core/SiliconStudio.Core.Design/Reflection/TypeDescriptorFactory.cs:24-26 | The parameterless constructor yields an empty, valid factory over a fresh registry of its own. |
| TypeDescriptors.TypeDescriptorFactory.constructor | sources/common/core/SiliconStudio.Core.Design/Reflection/TypeDescriptorFactory.cs:35-36 | The factory keeps the given registry and starts with an empty cache, with no initialization running. |
| TypeDescriptors.TypeDescriptorFactory.Find | sources/common/core/SiliconStudio.Core.Design/Reflection/TypeDescriptorFactory.cs:39-60 | Find(null) returns null and changes nothing. On a hit it returns the cached descriptor and changes nothing. On a miss it returns a fresh descriptor that is then cached and initialized, with the shape Classify gives. The cache only grows, and its existing entries and their descriptors are untouched. |
| TypeDescriptors.FindTwice | sources/common/core/SiliconStudio.Core.Design/Reflection/TypeDescriptorFactory.cs:39-60 | For every valid factory and loaded type, two successive Find calls return the identical, non-null descriptor, the one then cached. |
| TypeDescriptors.ReentrantFind | sources/common/core/SiliconStudio.Core.Design/Reflection/TypeDescriptorFactory.cs:48-55 | For every type whose Initialize is still running, Find returns the cached descriptor in its constructed state and changes neither the cache nor any descriptor. |
| TypeDescriptors.TypeDescriptorFactory.FindAll | sources/common/core/SiliconStudio.Core.Design/Reflection/TypeDescriptorFactory.cs:55 | Each named type gets its own Find call. Result i is the descriptor now cached for name i. The cache only grows and stays valid. |
| TypeDescriptors.TypeDescriptorFactory.Add | sources/common/core/SiliconStudio.Core.Design/Reflection/TypeDescriptorFactory.cs:52 | Add needs the key to be absent. Find meets this because Create cannot change the cache. The new entry maps the key to the constructed descriptor, and the cache invariant still holds. |
| TypeDescriptors.TypeDescriptorFactory.Create | sources/common/core/SiliconStudio.Core.Design/Reflection/TypeDescriptorFactory.cs:79-113 | Create returns a fresh, uninitialized descriptor for the type, built by this factory, with shape Classify(type). It has no modifies clause, so it cannot touch the cache. |
| TypeDescriptors.TypeDescriptorFactory.ResolvedInGrows | sources/common/core/SiliconStudio.Core.Design/Reflection/TypeDescriptorFactory.cs:48-52 | Adding cache entries keeps an initialized descriptor's references equal to the cached descriptors of the types it mentions. |
| TypeDescriptors.TypeDescriptor.constructor | sources/common/core/SiliconStudio.Core.Design/Reflection/TypeDescriptorFactory.cs:86-110 | A new descriptor records its factory, type and shape. It starts constructed: it is not initialized and has resolved nothing. |
| TypeDescriptors.TypeDescriptor.Initialize | sources/common/core/SiliconStudio.Core.Design/Reflection/TypeDescriptorFactory.cs:55 | Initialize runs while its own entry is already cached. Afterwards the descriptor is initialized and no longer marked as running. The cache has only grown and stays valid, and no other existing descriptor changes. |
| Graphics.WrappingAdd | sources/engine/SiliconStudio.Xenko.Graphics/DescriptorSet.cs:37 | C#'s unchecked int addition: the result is congruent to the true sum modulo 2^32, and equals it when the sum fits in 32 bits. |
| Graphics.WrapHarmlessForAllocatedOffsets | sources/engine/SiliconStudio.Xenko.Graphics/DescriptorSet.cs:37 | For an offset of -1 or more and an array no longer than .NET allows, a wrapped index that lands in the array equals the true sum. |
| Graphics.WrapReachesIndexZero | sources/engine/SiliconStudio.Xenko.Graphics/DescriptorSet.cs:37 | Offset and slot both -2^31 wrap to index 0. |
| Graphics.WithValue | sources/engine/SiliconStudio.Xenko.Graphics/DescriptorSet.cs:37 | Setting an entry's Value changes only that entry's value: its offset and size, and every other entry, stay the same. |
| Graphics.WithEntry | sources/engine/SiliconStudio.Xenko.Graphics/DescriptorSet.cs:69 | Assigning an entry replaces exactly that entry and leaves every other entry the same. |
| Graphics.ValueWritesCommute | sources/engine/SiliconStudio.Xenko.Graphics/DescriptorSet.cs:35-58 | Value writes to two different slots give the same array in either order. |
| Graphics.LastValueWins | sources/engine/SiliconStudio.Xenko.Graphics/DescriptorSet.cs:35-38 | Of two value writes to one slot, only the second one remains. |
| Graphics.ValueKeepsConstantBufferView | sources/engine/SiliconStudio.Xenko.Graphics/DescriptorSet.cs:35-70 | A value written over a constant-buffer binding keeps that binding's offset and size. |
| Graphics.ConstantBufferOverridesValue | sources/engine/SiliconStudio.Xenko.Graphics/DescriptorSet.cs:35-70 | A constant-buffer binding erases the value the slot held before. |
| Graphics.DescriptorSet.constructor | sources/engine/SiliconStudio.Xenko.Graphics/DescriptorSet.cs:22-28 | The set aliases the pool's array, not a copy, and keeps the allocated offset. A set built this way is valid exactly when the allocation did not return -1. |
| Graphics.DescriptorSet.New | sources/engine/SiliconStudio.Xenko.Graphics/DescriptorSet.cs:13-16 | New builds a set over the pool's entries with the allocated offset. A set built by New is valid exactly when the offset is not -1. |
| Graphics.DescriptorSet.IsValid | sources/engine/SiliconStudio.Xenko.Graphics/DescriptorSet.cs:28 | True exactly when the start offset is not -1. |
| Graphics.DescriptorSet.SetValue | sources/engine/SiliconStudio.Xenko.Graphics/DescriptorSet.cs:35-38 | The array becomes WithValue(old contents, start + slot, value), the index being the 32-bit wrapped sum. The array and the offset themselves stay the same. |
| Graphics.DescriptorSet.SetShaderResourceView | sources/engine/SiliconStudio.Xenko.Graphics/DescriptorSet.cs:45-48 | The array becomes WithValue(old contents, start + slot, view). |
| Graphics.DescriptorSet.SetSamplerState | sources/engine/SiliconStudio.Xenko.Graphics/DescriptorSet.cs:55-58 | The array becomes WithValue(old contents, start + slot, sampler). |
| Graphics.DescriptorSet.SetConstantBuffer | sources/engine/SiliconStudio.Xenko.Graphics/DescriptorSet.cs:67-70 | The array becomes WithEntry(old contents, start + slot, (buffer, offset, size)). |
| Graphics.DescriptorSet.SetUnorderedAccessView | sources/engine/SiliconStudio.Xenko.Graphics/DescriptorSet.cs:77-80 | The array becomes WithValue(old contents, start + slot, view). |

## Left out

- The `lock` in `Find` and everything about concurrent callers: the model runs `Find` sequentially.
- The bodies of the concrete descriptor classes are not modelled. They are represented by
  one `TypeDescriptor` class with a shape tag, whose `Initialize` only resolves the types it
  mentions. The five predicates `IsPrimitive`, `IsDictionary`, `IsCollection`,
  `Type.IsArray` and `IsNullable` depend on .NET reflection. They are fields of `TypeInfo`.
- `TypeDescriptors.TypeDescriptorFactory.FindAll` is not a member of the C# factory. It stands
  for the lookups a concrete descriptor's `Initialize` makes, which are not modelled.
- Failures inside `Create` or `Initialize` are not modelled: the modelled versions cannot
  fail. TypeDescriptorFactory.cs has no clean-up either, because a descriptor is added at
  line 52, before `Initialize` runs at line 55. A stronger design that removes such an entry
  describes something the code does not do; the model follows the code.
- `Create` is `protected virtual` in C#, so a subclass may override it. The model has no
  subclasses.
- The `AttributeRegistry` internals are opaque here: an empty class. The static `Default`
  factory is also left out; it is one more factory built by `NewDefault`.
- TypeDescriptors.TypeDescriptorFactory.Find: requires that a non-null type is one of the
  loaded types in `reflection`, and the factory requires that table to be closed. Because
  the table is a finite map, this also says that the graph of types reachable from a type is
  finite. That is what the termination argument (`decreases Unregistered()`) rests on.
- Infinite type graphs are not modelled. A generic type whose member uses it at a deeper
  type argument, such as `class C<T> { C<C<T>> Next; }`, reaches infinitely many types, and
  no finite closed table describes it. For such a type, a descriptor whose `Initialize`
  looks up its member types eagerly would keep calling `Find` on new types without bound,
  since every miss at TypeDescriptorFactory.cs:50-55 builds and initializes one more
  descriptor. This is a behaviour of the code itself; the model covers finite graphs only.
- The C# `Type` object's reference identity is modelled by its name.
- `DescriptorPool` and `DescriptorSetLayout` are not part of this model. The pool's entry
  array is an input, and so is the offset `pool.Allocate` returned, which may be -1.
  `GraphicsDevice` is unused.
- `GraphicsResource`, `SamplerState` and `Buffer` are all modelled as one opaque handle
  type, `GpuObject`. The static types of the setters' parameters are therefore not
  distinguished.
- Only the branch of the `#if` graphics-API selection that the file shows is modelled, at
  DescriptorSet.cs:18.
- The setters require `0 <= DescriptorStartOffset + slot < HeapObjects.Length`. The C# code
  does not check this: an index outside it makes the array access throw.
  - This bound does not imply `IsValid`. On a failed allocation (offset -1), slot 1 is
    in bounds and writes cell 0. `Graphics.SharedPoolScenario` shows this.
  - `DescriptorStartOffset + slot` is computed with 32-bit wrap-around, as C#'s unchecked
    addition does (`Graphics.WrappingAdd`). Wrap-around only matters for offsets below -1:
    with offset and slot both -2^31 the index wraps to 0, and the write succeeds.
- Graphics.DescriptorSet.New: `DescriptorSet` is a C# `struct`, but it is modelled as a class
  reachable only through `New` and the constructor.
  - Struct copies have no identity, so the `fresh` in New's postcondition has no
    counterpart in the C# code.
  - `default(DescriptorSet)` is not modelled. That value has a null `HeapObjects` and
    `DescriptorStartOffset` 0, so `IsValid` returns true although nothing was allocated,
    and every setter throws a NullReferenceException.
  - "Valid exactly when the allocation did not return -1" holds only for sets built by
    `New`.
  - The fields are readonly, so the setters' effect on the shared array is the same for a
    struct and for the class.
