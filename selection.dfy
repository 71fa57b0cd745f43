/** The two first-match searches of the context: which physical device and queue
    family run the kernel, and which memory type backs a buffer. */
module Selection {
  import opened Outcomes
  import opened VkTypes

  // ---------------------------------------------------------------------------
  // Queue family and physical device
  // ---------------------------------------------------------------------------

  /** A queue family the upscaler accepts: it has the COMPUTE flag and at least one queue. */
  predicate ComputeCapable(p: QueueFamilyProperties) {
    (p.queueFlags & QUEUE_COMPUTE_BIT) == QUEUE_COMPUTE_BIT && p.queueCount > 0
  }

  /** No queue family of `d` is compute capable. */
  predicate NoComputeFamily(d: PhysicalDevice) {
    forall j :: 0 <= j < |d.queueFamilies| ==> !ComputeCapable(d.queueFamilies[j])
  }

  /** `q` is the index of the first compute-capable family in `families`. */
  predicate IsFirstComputeFamily(families: seq<QueueFamilyProperties>, q: nat) {
    q < |families| && ComputeCapable(families[q])
    && forall j :: 0 <= j < q ==> !ComputeCapable(families[j])
  }

  /** `iter().position(..)` over the queue families, from index `i` on. */
  function ComputeFamilyFrom(families: seq<QueueFamilyProperties>, i: nat): (r: Option<nat>)
    requires i <= |families|
    ensures r.Some? ==> i <= r.value < |families| && ComputeCapable(families[r.value])
    ensures r.Some? ==> forall j :: i <= j < r.value ==> !ComputeCapable(families[j])
    ensures r.None? ==> forall j :: i <= j < |families| ==> !ComputeCapable(families[j])
    decreases |families| - i
  {
    if i == |families| then None
    else if ComputeCapable(families[i]) then Some(i)
    else ComputeFamilyFrom(families, i + 1)
  }

  /** The position of the first compute-capable family, if any. */
  function ComputeFamilyPosition(families: seq<QueueFamilyProperties>): (r: Option<nat>)
    ensures r.Some? ==> IsFirstComputeFamily(families, r.value)
    ensures r.None? ==> forall j :: 0 <= j < |families| ==> !ComputeCapable(families[j])
  {
    ComputeFamilyFrom(families, 0)
  }

  /** The device and queue family index `pick_physical_device` returns. */
  datatype DeviceChoice = DeviceChoice(device: PhysicalDevice, queueFamilyIndex: nat)

  const NO_SUITABLE_DEVICE := "No suitable physical device found"
  const ENUMERATION_FAILED_PREFIX := "Failed to enumerate physical devices: "

  /** `pick_physical_device`: walk the enumerated devices in order and return the
      first one that has a compute-capable queue family, with the index of its
      first such family. `enumerated` is what vkEnumeratePhysicalDevices
      answered: the devices in enumeration order, or the driver's error text. */
  method PickPhysicalDevice(enumerated: Result<seq<PhysicalDevice>, string>)
    returns (r: Result<DeviceChoice, string>)
    ensures enumerated.Err? ==> r == Err(ENUMERATION_FAILED_PREFIX + enumerated.error)
    ensures enumerated.Ok? && r.Ok? ==>
      exists k :: 0 <= k < |enumerated.value|
        && enumerated.value[k] == r.value.device
        && IsFirstComputeFamily(r.value.device.queueFamilies, r.value.queueFamilyIndex)
        && forall j :: 0 <= j < k ==> NoComputeFamily(enumerated.value[j])
    ensures enumerated.Ok? && r.Err? ==>
      r.error == NO_SUITABLE_DEVICE
      && forall k :: 0 <= k < |enumerated.value| ==> NoComputeFamily(enumerated.value[k])
  {
    if enumerated.Err? {
      return Err(ENUMERATION_FAILED_PREFIX + enumerated.error);
    }
    var devices := enumerated.value;
    for k := 0 to |devices|
      invariant forall j :: 0 <= j < k ==> NoComputeFamily(devices[j])
    {
      var index := ComputeFamilyPosition(devices[k].queueFamilies);
      if index.Some? {
        return Ok(DeviceChoice(devices[k], index.value));
      }
    }
    return Err(NO_SUITABLE_DEVICE);
  }

  // ---------------------------------------------------------------------------
  // Memory type
  // ---------------------------------------------------------------------------

  const HOST_VISIBLE_AND_COHERENT: bv32 := MEMORY_PROPERTY_HOST_VISIBLE_BIT | MEMORY_PROPERTY_HOST_COHERENT_BIT

  /** Bit `i` of the requirement's `memoryTypeBits` is set. */
  predicate TypeAllowed(memoryTypeBits: bv32, i: nat)
    requires i < MAX_MEMORY_TYPES
  {
    (memoryTypeBits & (1 << i)) != 0
  }

  /** Slot `i` is allowed by the requirement and its flags contain both HOST_VISIBLE and HOST_COHERENT. */
  predicate SuitableMemoryType(memoryTypeBits: bv32, types: MemoryTypeArray, i: nat)
    requires i < MAX_MEMORY_TYPES
  {
    TypeAllowed(memoryTypeBits, i)
    && (types[i].propertyFlags & HOST_VISIBLE_AND_COHERENT) == HOST_VISIBLE_AND_COHERENT
  }

  /** `memory_types.iter().enumerate().find(..)` from slot `i` on. */
  function FindMemoryTypeFrom(memoryTypeBits: bv32, types: MemoryTypeArray, i: nat): (r: Option<nat>)
    requires i <= MAX_MEMORY_TYPES
    ensures r.Some? ==> i <= r.value < MAX_MEMORY_TYPES && SuitableMemoryType(memoryTypeBits, types, r.value)
    ensures r.Some? ==> forall j :: i <= j < r.value ==> !SuitableMemoryType(memoryTypeBits, types, j)
    ensures r.None? ==> forall j :: i <= j < MAX_MEMORY_TYPES ==> !SuitableMemoryType(memoryTypeBits, types, j)
    decreases MAX_MEMORY_TYPES - i
  {
    if i == MAX_MEMORY_TYPES then None
    else if SuitableMemoryType(memoryTypeBits, types, i) then Some(i)
    else FindMemoryTypeFrom(memoryTypeBits, types, i + 1)
  }

  const NO_SUITABLE_MEMORY_TYPE := "Failed to find suitable memory type"

  /** The memory-type search of `create_buffer`: the lowest slot of all 32 that the
      requirement allows and that is host visible and host coherent, or the
      error text when there is none. */
  function FindMemoryTypeIndex(memoryTypeBits: bv32, types: MemoryTypeArray): (r: Result<nat, string>)
    ensures r.Ok? ==> r.value < MAX_MEMORY_TYPES && SuitableMemoryType(memoryTypeBits, types, r.value)
    ensures r.Ok? ==> forall j :: 0 <= j < r.value ==> !SuitableMemoryType(memoryTypeBits, types, j)
    ensures r.Err? <==> forall j :: 0 <= j < MAX_MEMORY_TYPES ==> !SuitableMemoryType(memoryTypeBits, types, j)
    ensures r.Err? ==> r.error == NO_SUITABLE_MEMORY_TYPE
  {
    match FindMemoryTypeFrom(memoryTypeBits, types, 0)
    case Some(i) => Ok(i)
    case None => Err(NO_SUITABLE_MEMORY_TYPE)
  }

  /** The search looks past `memoryTypeCount`; it still answers with a counted slot
      whenever the uncounted slots carry no property flags, as a driver leaves
      them. */
  lemma FoundSlotIsCounted(memoryTypeBits: bv32, props: MemoryProperties)
    requires props.memoryTypeCount <= MAX_MEMORY_TYPES
    requires forall j :: props.memoryTypeCount <= j < MAX_MEMORY_TYPES ==>
      props.memoryTypes[j].propertyFlags == 0
    ensures var r := FindMemoryTypeIndex(memoryTypeBits, props.memoryTypes);
      r.Ok? ==> r.value < props.memoryTypeCount
  {
  }

  /** The slot chosen is the only one meeting the search's two conditions: suitable,
      and no lower slot suitable. */
  lemma ChosenSlotIsUnique(memoryTypeBits: bv32, types: MemoryTypeArray, k: nat)
    requires k < MAX_MEMORY_TYPES && SuitableMemoryType(memoryTypeBits, types, k)
    requires forall j :: 0 <= j < k ==> !SuitableMemoryType(memoryTypeBits, types, j)
    ensures FindMemoryTypeIndex(memoryTypeBits, types) == Ok(k)
  {
  }
}
