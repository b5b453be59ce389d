/**
 * DescriptorSet: a window onto a descriptor pool's shared entry array. The set keeps the pool's
 * array itself (not a copy) and the offset the pool allocated for it; each setter writes one
 * cell of that array, at the set's start offset plus the slot.
 */
module Graphics {

  /** A C# `int`. */
  newtype int32 = x: int | -0x8000_0000 <= x < 0x8000_0000

  /** The largest length a .NET array can have. */
  const MaxArrayLength: nat := 0x7FFF_FFC7

  /** C#'s unchecked `a + b` on `int`: the sum wrapped around into the 32-bit range. */
  function WrappingAdd(a: int32, b: int32): (r: int32)
    ensures (r as int - (a as int + b as int)) % 0x1_0000_0000 == 0
    ensures -0x8000_0000 <= a as int + b as int < 0x8000_0000 ==> r as int == a as int + b as int
  {
    var sum := a as int + b as int;
    if sum >= 0x8000_0000 then (sum - 0x1_0000_0000) as int32
    else if sum < -0x8000_0000 then (sum + 0x1_0000_0000) as int32
    else sum as int32
  }

  /**
   * For the offsets `pool.Allocate` returns (a start index, or -1), wrap-around never turns an
   * out-of-range write into one that lands in a .NET array: a wrapped sum that indexes such an
   * array is the true sum.
   */
  lemma WrapHarmlessForAllocatedOffsets(start: int32, slot: int32, length: nat)
    requires start >= -1 && length <= MaxArrayLength
    requires 0 <= WrappingAdd(start, slot) as int < length
    ensures WrappingAdd(start, slot) as int == start as int + slot as int
  {
  }

  /** Below -1 it does: offset and slot both -2^31 wrap to index 0, a write that succeeds. */
  lemma WrapReachesIndexZero()
    ensures WrappingAdd(-0x8000_0000, -0x8000_0000) == 0
  {
  }

  /**
   * A reference to a graphics object (a shader resource or unordered access view, a sampler
   * state, a buffer, or any other object), or null. The objects themselves are opaque here.
   */
  datatype GpuObject = Null | Handle(id: nat)

  /** DescriptorSetEntry: the bound object and, for a constant buffer, its view's offset and size. */
  datatype DescriptorSetEntry = DescriptorSetEntry(value: GpuObject, offset: int32, size: int32)

  /**
   * The pool's entries after `entries[index].Value = value` on an array of structs: only the
   * value of that one entry changes; its offset and size, and every other entry, stay.
   */
  function WithValue(entries: seq<DescriptorSetEntry>, index: nat, value: GpuObject): (r: seq<DescriptorSetEntry>)
    requires index < |entries|
    ensures |r| == |entries|
    ensures r[index].value == value
    ensures r[index].offset == entries[index].offset && r[index].size == entries[index].size
    ensures forall j :: 0 <= j < |r| && j != index ==> r[j] == entries[j]
  {
    entries[index := entries[index].(value := value)]
  }

  /** The pool's entries after `entries[index] = entry`: that entry is replaced whole, no other changes. */
  function WithEntry(entries: seq<DescriptorSetEntry>, index: nat, entry: DescriptorSetEntry): (r: seq<DescriptorSetEntry>)
    requires index < |entries|
    ensures |r| == |entries| && r[index] == entry
    ensures forall j :: 0 <= j < |r| && j != index ==> r[j] == entries[j]
  {
    entries[index := entry]
  }

  /** Writes of values to two different slots do not interfere, in either order. */
  lemma ValueWritesCommute(entries: seq<DescriptorSetEntry>, i: nat, j: nat, v: GpuObject, w: GpuObject)
    requires i < |entries| && j < |entries| && i != j
    ensures WithValue(WithValue(entries, i, v), j, w) == WithValue(WithValue(entries, j, w), i, v)
  {
  }

  /** Writing a value twice to the same slot is the same as writing only the second one. */
  lemma LastValueWins(entries: seq<DescriptorSetEntry>, i: nat, v: GpuObject, w: GpuObject)
    requires i < |entries|
    ensures WithValue(WithValue(entries, i, v), i, w) == WithValue(entries, i, w)
  {
  }

  /**
   * A value written over a constant buffer binding keeps that binding's view window: the
   * result is the binding of the new value with the old offset and size.
   */
  lemma ValueKeepsConstantBufferView(entries: seq<DescriptorSetEntry>, i: nat, buffer: GpuObject,
                                     offset: int32, size: int32, v: GpuObject)
    requires i < |entries|
    ensures WithValue(WithEntry(entries, i, DescriptorSetEntry(buffer, offset, size)), i, v)
         == WithEntry(entries, i, DescriptorSetEntry(v, offset, size))
  {
  }

  /** A constant buffer binding erases whatever the slot held before. */
  lemma ConstantBufferOverridesValue(entries: seq<DescriptorSetEntry>, i: nat, v: GpuObject, e: DescriptorSetEntry)
    requires i < |entries|
    ensures WithEntry(WithValue(entries, i, v), i, e) == WithEntry(entries, i, e)
  {
  }

  class DescriptorSet {
    /** The pool's entry array, shared with the pool and every other set allocated from it. */
    const heapObjects: array<DescriptorSetEntry>
    /** Where this set's slots start in `heapObjects`; -1 when the pool could not allocate them. */
    const descriptorStartOffset: int32

    /**
     * The private constructor: keeps the pool's array itself, and the offset that
     * `pool.Allocate(desc.ElementCount)` returned (an input here). The set is valid exactly
     * when that allocation did not fail.
     */
    constructor (poolEntries: array<DescriptorSetEntry>, allocatedOffset: int32)
      ensures heapObjects == poolEntries && descriptorStartOffset == allocatedOffset
      ensures IsValid() <==> allocatedOffset != -1
    {
      heapObjects := poolEntries;
      descriptorStartOffset := allocatedOffset;
    }

    /** `DescriptorSet.New`: a fresh set over the pool's entries; the pool's array is not touched. */
    static method New(poolEntries: array<DescriptorSetEntry>, allocatedOffset: int32) returns (s: DescriptorSet)
      ensures fresh(s) && s.heapObjects == poolEntries && s.descriptorStartOffset == allocatedOffset
      ensures s.IsValid() <==> allocatedOffset != -1
    {
      s := new DescriptorSet(poolEntries, allocatedOffset);
    }

    /** Whether the pool allocated slots for this set: its start offset is not -1. */
    function IsValid(): (valid: bool)
      ensures valid <==> descriptorStartOffset != -1
    {
      descriptorStartOffset != -1
    }

    /**
     * Whether `slot` denotes a cell of the shared array. The index is C#'s unchecked
     * `DescriptorStartOffset + slot`. The C# code does not check it; an index outside the
     * array makes the access throw, so the setters require it.
     */
    predicate InBounds(slot: int32) {
      0 <= WrappingAdd(descriptorStartOffset, slot) as int < heapObjects.Length
    }

    /** The array index a slot denotes. */
    function Index(slot: int32): nat
      requires InBounds(slot)
    {
      WrappingAdd(descriptorStartOffset, slot) as int
    }

    /** SetValue: binds any object to a slot, keeping the entry's offset and size. */
    method SetValue(slot: int32, value: GpuObject)
      requires InBounds(slot)
      modifies heapObjects
      ensures heapObjects[..] == WithValue(old(heapObjects[..]), Index(slot), value)
    {
      heapObjects[Index(slot)] := heapObjects[Index(slot)].(value := value);
    }

    /** SetShaderResourceView: binds a shader resource view to a slot, keeping offset and size. */
    method SetShaderResourceView(slot: int32, shaderResourceView: GpuObject)
      requires InBounds(slot)
      modifies heapObjects
      ensures heapObjects[..] == WithValue(old(heapObjects[..]), Index(slot), shaderResourceView)
    {
      heapObjects[Index(slot)] := heapObjects[Index(slot)].(value := shaderResourceView);
    }

    /** SetSamplerState: binds a sampler state to a slot, keeping offset and size. */
    method SetSamplerState(slot: int32, samplerState: GpuObject)
      requires InBounds(slot)
      modifies heapObjects
      ensures heapObjects[..] == WithValue(old(heapObjects[..]), Index(slot), samplerState)
    {
      heapObjects[Index(slot)] := heapObjects[Index(slot)].(value := samplerState);
    }

    /** SetConstantBuffer: replaces a slot's entry with a view of `size` bytes of `buffer` from `offset`. */
    method SetConstantBuffer(slot: int32, buffer: GpuObject, offset: int32, size: int32)
      requires InBounds(slot)
      modifies heapObjects
      ensures heapObjects[..] == WithEntry(old(heapObjects[..]), Index(slot), DescriptorSetEntry(buffer, offset, size))
    {
      heapObjects[Index(slot)] := DescriptorSetEntry(buffer, offset, size);
    }

    /** SetUnorderedAccessView: binds an unordered access view to a slot, keeping offset and size. */
    method SetUnorderedAccessView(slot: int32, unorderedAccessView: GpuObject)
      requires InBounds(slot)
      modifies heapObjects
      ensures heapObjects[..] == WithValue(old(heapObjects[..]), Index(slot), unorderedAccessView)
    {
      heapObjects[Index(slot)] := heapObjects[Index(slot)].(value := unorderedAccessView);
    }
  }

  /**
   * Two sets allocated from one pool write into the pool's own array: what one set binds is
   * visible in the pool's entries, and neither disturbs the other's slots.
   */
  method SharedPoolScenario(texture: GpuObject, buffer: GpuObject)
  {
    var entries := new DescriptorSetEntry[4](_ => DescriptorSetEntry(Null, 0, 0));
    var first := DescriptorSet.New(entries, 0);
    var second := DescriptorSet.New(entries, 2);
    first.SetShaderResourceView(1, texture);
    second.SetConstantBuffer(0, buffer, 256, 64);
    second.SetValue(0, texture);
    assert entries[1] == DescriptorSetEntry(texture, 0, 0);
    assert entries[2] == DescriptorSetEntry(texture, 256, 64);
    assert entries[0] == entries[3] == DescriptorSetEntry(Null, 0, 0);
    var failed := DescriptorSet.New(entries, -1);
    assert !failed.IsValid();
    // The setters do not consult IsValid: slot 1 of a failed set is in bounds and is cell 0.
    assert failed.InBounds(1) && failed.Index(1) == 0;
  }
}
