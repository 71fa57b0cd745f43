/** The few Vulkan structures and flag bits the upscaler reads, as plain values.
    Flag words are 32-bit masks, as in the Vulkan 1.3 headers. */
module VkTypes {

  const U32_LIMIT: int := 0x1_0000_0000

  /** Rust's `u32`. */
  type uint32 = x: int | 0 <= x < 0x1_0000_0000

  /** Rust's `u8`. */
  type byte = b: int | 0 <= b < 256

  /** VkQueueFlagBits: VK_QUEUE_COMPUTE_BIT. */
  const QUEUE_COMPUTE_BIT: bv32 := 0x2

  /** VkMemoryPropertyFlagBits. */
  const MEMORY_PROPERTY_HOST_VISIBLE_BIT: bv32 := 0x2
  const MEMORY_PROPERTY_HOST_COHERENT_BIT: bv32 := 0x4

  /** VkShaderStageFlagBits: VK_SHADER_STAGE_COMPUTE_BIT. */
  const SHADER_STAGE_COMPUTE_BIT: bv32 := 0x20

  /** VK_MAX_MEMORY_TYPES: the fixed length of VkPhysicalDeviceMemoryProperties::memoryTypes. */
  const MAX_MEMORY_TYPES: nat := 32

  /** VkQueueFamilyProperties, reduced to the two fields the device pick reads. */
  datatype QueueFamilyProperties = QueueFamilyProperties(queueFlags: bv32, queueCount: uint32)

  /** VkMemoryType. */
  datatype MemoryType = MemoryType(propertyFlags: bv32, heapIndex: uint32)

  /** The fixed 32-slot `memoryTypes` array. Slots at and beyond `memoryTypeCount`
      are present too; the memory-type search scans all of them. */
  type MemoryTypeArray = s: seq<MemoryType> | |s| == 32
    witness seq(32, _ => MemoryType(0, 0))

  /** VkPhysicalDeviceMemoryProperties (the heaps are not read and are left out). */
  datatype MemoryProperties = MemoryProperties(memoryTypeCount: uint32, memoryTypes: MemoryTypeArray)

  /** What the instance reports about one physical device: its identity, its queue
      families (vkGetPhysicalDeviceQueueFamilyProperties) and its memory
      properties (vkGetPhysicalDeviceMemoryProperties). */
  datatype PhysicalDevice = PhysicalDevice(
    id: nat,
    queueFamilies: seq<QueueFamilyProperties>,
    memoryProperties: MemoryProperties)

  /** VkMemoryRequirements of a buffer. */
  datatype MemoryRequirements = MemoryRequirements(size: nat, alignment: nat, memoryTypeBits: bv32)
}
