/**
 * Memory-type selection (find_memory_type): the first memory type that the
 * resource's type filter admits and whose property flags include every
 * requested property.
 */
module Memory {
  import opened Vk

  /** VK_MAX_MEMORY_TYPES: the length of VkPhysicalDeviceMemoryProperties::memoryTypes. */
  const MaxMemoryTypes: nat := 32

  /** VkMemoryPropertyFlagBits used by the buffer and image helpers. */
  const DeviceLocal: bv32 := 0x1
  const HostVisible: bv32 := 0x2
  const HostCoherent: bv32 := 0x4

  /** The part of VkPhysicalDeviceMemoryProperties the search reads: the count and each type's property flags. */
  datatype MemoryProperties = MemoryProperties(memoryTypeCount: nat, propertyFlags: seq<bv32>)
  {
    ghost predicate Valid()
    {
      |propertyFlags| == MaxMemoryTypes && memoryTypeCount <= MaxMemoryTypes
    }
  }

  /**
   * The filter shifted right by one bit, n times (`type_filter >>= 1`
   * repeated); the uint32_t filter is read as a number, so a shift halves it.
   */
  function ShiftedRight(typeFilter: nat, n: nat): nat
  {
    if n == 0 then typeFilter else ShiftedRight(typeFilter, n - 1) / 2
  }

  /** The lowest bit is set (`type_filter & 1`). */
  predicate LowBit(mask: nat)
  {
    mask % 2 == 1
  }

  /** Every requested property flag is present (`(flags & properties) == properties`). */
  predicate Includes(flags: bv32, properties: bv32)
  {
    flags & properties == properties
  }

  /** Bit i of the filter (VkMemoryRequirements::memoryTypeBits) admits memory type i. */
  predicate Admits(typeFilter: nat, i: nat)
  {
    LowBit(ShiftedRight(typeFilter, i))
  }

  /** Memory type i is admitted by the filter and has every requested property. */
  predicate Suitable(props: MemoryProperties, typeFilter: nat, properties: bv32, i: nat)
    requires props.Valid() && i < props.memoryTypeCount
  {
    Admits(typeFilter, i) && Includes(props.propertyFlags[i], properties)
  }

  /**
   * Returns the least suitable index among the first memoryTypeCount types,
   * or uint32_t's maximum (after logging an error) when there is none.
   */
  method FindMemoryType(props: MemoryProperties, typeFilter: nat, properties: bv32) returns (index: nat)
    requires props.Valid()
    ensures index == Uint32Max <==> forall i :: 0 <= i < props.memoryTypeCount ==> !Suitable(props, typeFilter, properties, i)
    ensures index != Uint32Max ==>
      index < props.memoryTypeCount && Suitable(props, typeFilter, properties, index) &&
      forall j :: 0 <= j < index ==> !Suitable(props, typeFilter, properties, j)
  {
    var filter := typeFilter;
    var typeIndex := Uint32Max;
    var i := 0;
    while i < props.memoryTypeCount
      invariant 0 <= i <= props.memoryTypeCount
      invariant filter == ShiftedRight(typeFilter, i)
      invariant forall j :: 0 <= j < i ==> !Suitable(props, typeFilter, properties, j)
    {
      if LowBit(filter) && Includes(props.propertyFlags[i], properties) {
        assert Suitable(props, typeFilter, properties, i);
        typeIndex := i;
        break;
      }
      filter := filter / 2;
      i := i + 1;
    }
    index := typeIndex;
  }
}
