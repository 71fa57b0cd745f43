/** The binding and parameter contract between the context's layouts and the
    objects `process_image` builds: the descriptor-set layout, the descriptor
    pool, the two descriptor writes, the push-constant range and the 12-byte
    push block. */
module Bindings {
  import opened VkTypes

  /** VkDescriptorType. */
  datatype DescriptorType =
    | Sampler | CombinedImageSampler | SampledImage | StorageImage
    | UniformTexelBuffer | StorageTexelBuffer | UniformBuffer | StorageBuffer
    | UniformBufferDynamic | StorageBufferDynamic | InputAttachment

  /** VkDescriptorSetLayoutBinding (no immutable samplers). */
  datatype LayoutBinding = LayoutBinding(
    binding: nat, descriptorType: DescriptorType, descriptorCount: nat, stageFlags: bv32)

  /** `create_descriptor_set_layout`: binding 0 is the input image buffer,
      binding 1 the output image buffer. */
  const SET_LAYOUT_BINDINGS: seq<LayoutBinding> := [
    LayoutBinding(0, StorageBuffer, 1, SHADER_STAGE_COMPUTE_BIT),
    LayoutBinding(1, StorageBuffer, 1, SHADER_STAGE_COMPUTE_BIT)
  ]

  /** VkPushConstantRange. */
  datatype PushConstantRange = PushConstantRange(stageFlags: bv32, offset: nat, size: nat)

  /** `create_pipeline_layout`: three `u32` values visible to the compute stage. */
  const PUSH_CONSTANT_RANGES: seq<PushConstantRange> := [
    PushConstantRange(SHADER_STAGE_COMPUTE_BIT, 0, 12)
  ]

  /** VkDescriptorPoolSize and VkDescriptorPoolCreateInfo (no flags). */
  datatype PoolSize = PoolSize(descriptorType: DescriptorType, descriptorCount: nat)
  datatype DescriptorPoolInfo = DescriptorPoolInfo(maxSets: nat, poolSizes: seq<PoolSize>)

  /** The pool `process_image` creates: one set, two storage-buffer descriptors. */
  const DESCRIPTOR_POOL_INFO := DescriptorPoolInfo(1, [PoolSize(StorageBuffer, 2)])

  /** VkDescriptorBufferInfo; `buffer` is the buffer's handle, `WholeSize` is VK_WHOLE_SIZE. */
  datatype BufferRange = WholeSize | Bytes(n: nat)
  datatype BufferInfo = BufferInfo(buffer: int, offset: nat, range: BufferRange)

  /** VkWriteDescriptorSet for a buffer descriptor. */
  datatype DescriptorWrite = DescriptorWrite(
    dstSet: nat, dstBinding: nat, dstArrayElement: nat, descriptorCount: nat,
    descriptorType: DescriptorType, bufferInfo: BufferInfo)

  /** The two writes `process_image` hands to `update_descriptor_sets`. */
  function DescriptorWrites(descriptorSet: nat, input: int, output: int): seq<DescriptorWrite> {
    [ DescriptorWrite(descriptorSet, 0, 0, 1, StorageBuffer, BufferInfo(input, 0, WholeSize)),
      DescriptorWrite(descriptorSet, 1, 0, 1, StorageBuffer, BufferInfo(output, 0, WholeSize)) ]
  }

  // ---------------------------------------------------------------------------
  // What it means for the pieces to agree
  // ---------------------------------------------------------------------------

  /** Write `w` targets binding `b` with `b`'s type and stays within its array. */
  predicate WriteFitsBinding(w: DescriptorWrite, b: LayoutBinding) {
    && w.dstBinding == b.binding
    && w.descriptorType == b.descriptorType
    && w.dstArrayElement + w.descriptorCount <= b.descriptorCount
  }

  /** Every write lands on a binding the layout declares. */
  predicate WritesMatchLayout(writes: seq<DescriptorWrite>, layout: seq<LayoutBinding>) {
    forall i :: 0 <= i < |writes| ==>
      exists k :: 0 <= k < |layout| && WriteFitsBinding(writes[i], layout[k])
  }

  /** Every binding the layout declares receives a write. */
  predicate EveryBindingWritten(writes: seq<DescriptorWrite>, layout: seq<LayoutBinding>) {
    forall k :: 0 <= k < |layout| ==>
      exists i :: 0 <= i < |writes| && WriteFitsBinding(writes[i], layout[k])
  }

  /** Some write binds the whole of `buffer`, from offset 0, at `binding`. */
  predicate BindsWholeBuffer(writes: seq<DescriptorWrite>, binding: nat, buffer: int) {
    exists i :: 0 <= i < |writes|
      && writes[i].dstBinding == binding
      && writes[i].bufferInfo == BufferInfo(buffer, 0, WholeSize)
  }

  /** Descriptors of type `t` one set of `layout` needs. */
  function LayoutCount(layout: seq<LayoutBinding>, t: DescriptorType): nat {
    if layout == [] then 0
    else (if layout[0].descriptorType == t then layout[0].descriptorCount else 0)
         + LayoutCount(layout[1..], t)
  }

  /** Descriptors of type `t` a pool with `sizes` holds. */
  function PoolCount(sizes: seq<PoolSize>, t: DescriptorType): nat {
    if sizes == [] then 0
    else (if sizes[0].descriptorType == t then sizes[0].descriptorCount else 0)
         + PoolCount(sizes[1..], t)
  }

  /** The pool can hand out exactly one set of `layout`, with no descriptor to spare. */
  predicate PoolHoldsExactlyOneSet(pool: DescriptorPoolInfo, layout: seq<LayoutBinding>) {
    pool.maxSets == 1
    && forall t :: PoolCount(pool.poolSizes, t) == LayoutCount(layout, t)
  }

  /** An update of `size` bytes at `offset` for `stage` lies inside one declared range
      whose stage flags include `stage`. */
  predicate PushFitsRange(ranges: seq<PushConstantRange>, stage: bv32, offset: nat, size: nat) {
    exists k :: 0 <= k < |ranges|
      && (ranges[k].stageFlags & stage) == stage
      && ranges[k].offset <= offset
      && offset + size <= ranges[k].offset + ranges[k].size
  }

  // ---------------------------------------------------------------------------
  // The push block
  // ---------------------------------------------------------------------------

  /** The four bytes of a `u32` in little-endian order, as the host lays out
      `[u32; 3]` in memory. */
  function LittleEndian32(v: uint32): seq<byte> {
    var q1 := v / 256;
    var q2 := q1 / 256;
    var q3 := q2 / 256;
    [v % 256, q1 % 256, q2 % 256, q3]
  }

  function FromLittleEndian32(b: seq<byte>): int
    requires |b| == 4
  {
    b[0] as int + 256 * (b[1] as int + 256 * (b[2] as int + 256 * (b[3] as int)))
  }

  lemma LittleEndian32RoundTrip(v: uint32)
    ensures FromLittleEndian32(LittleEndian32(v)) == v
  {
    var q1 := v / 256;
    var q2 := q1 / 256;
    var q3 := q2 / 256;
    assert v == v % 256 + 256 * q1;
    assert q1 == q1 % 256 + 256 * q2;
    assert q2 == q2 % 256 + 256 * q3;
  }

  /** The 12 bytes `cmd_push_constants` reads from `[width, height, factor]`. */
  function PushBlock(width: uint32, height: uint32, factor: uint32): seq<byte> {
    LittleEndian32(width) + LittleEndian32(height) + LittleEndian32(factor)
  }

  /** How the kernel reads the push block back: three `uint` values at byte offsets 0, 4, 8. */
  function DecodePushBlock(bytes: seq<byte>): (int, int, int)
    requires |bytes| == 12
  {
    (FromLittleEndian32(bytes[0..4]), FromLittleEndian32(bytes[4..8]), FromLittleEndian32(bytes[8..12]))
  }

  // ---------------------------------------------------------------------------
  // The contract holds
  // ---------------------------------------------------------------------------

  /** The two writes agree with the layout both ways, bind binding 0 to the input
      and binding 1 to the output buffer over their whole range, and the layout
      declares only compute-stage storage buffers of one descriptor each. */
  lemma DescriptorWritesAgreeWithLayout(descriptorSet: nat, input: int, output: int)
    ensures WritesMatchLayout(DescriptorWrites(descriptorSet, input, output), SET_LAYOUT_BINDINGS)
    ensures EveryBindingWritten(DescriptorWrites(descriptorSet, input, output), SET_LAYOUT_BINDINGS)
    ensures BindsWholeBuffer(DescriptorWrites(descriptorSet, input, output), 0, input)
    ensures BindsWholeBuffer(DescriptorWrites(descriptorSet, input, output), 1, output)
    ensures |DescriptorWrites(descriptorSet, input, output)| == 2
    ensures DescriptorWrites(descriptorSet, input, output)[0].dstBinding != DescriptorWrites(descriptorSet, input, output)[1].dstBinding
    ensures |SET_LAYOUT_BINDINGS| == 2
    ensures SET_LAYOUT_BINDINGS[0] == LayoutBinding(0, StorageBuffer, 1, SHADER_STAGE_COMPUTE_BIT)
    ensures SET_LAYOUT_BINDINGS[1] == LayoutBinding(1, StorageBuffer, 1, SHADER_STAGE_COMPUTE_BIT)
  {
    var writes, layout := DescriptorWrites(descriptorSet, input, output), SET_LAYOUT_BINDINGS;
    assert WriteFitsBinding(writes[0], layout[0]);
    assert WriteFitsBinding(writes[1], layout[1]);
    assert writes[0].dstBinding == 0 && writes[0].bufferInfo == BufferInfo(input, 0, WholeSize);
    assert writes[1].dstBinding == 1 && writes[1].bufferInfo == BufferInfo(output, 0, WholeSize);
  }

  /** The pool holds one set and exactly the descriptors the layout asks for. */
  lemma PoolMatchesLayout()
    ensures PoolHoldsExactlyOneSet(DESCRIPTOR_POOL_INFO, SET_LAYOUT_BINDINGS)
  {
    forall t
      ensures PoolCount(DESCRIPTOR_POOL_INFO.poolSizes, t) == LayoutCount(SET_LAYOUT_BINDINGS, t)
    {
      var sizes, layout := DESCRIPTOR_POOL_INFO.poolSizes, SET_LAYOUT_BINDINGS;
      assert sizes[1..] == [];
      assert layout[1..] == [layout[1]] && layout[1..][1..] == [];
      assert PoolCount(sizes, t) == if t == StorageBuffer then 2 else 0;
      assert LayoutCount(layout[1..], t) == if t == StorageBuffer then 1 else 0;
    }
  }

  /** The push block is 12 bytes, fits the compute range at offset 0, and the
      kernel reads back the width, height and factor the host pushed. */
  lemma PushBlockMatchesRange(width: uint32, height: uint32, factor: uint32)
    ensures |PushBlock(width, height, factor)| == 12
    ensures PushFitsRange(PUSH_CONSTANT_RANGES, SHADER_STAGE_COMPUTE_BIT, 0, |PushBlock(width, height, factor)|)
    ensures DecodePushBlock(PushBlock(width, height, factor)) == (width, height, factor)
  {
    var bytes := PushBlock(width, height, factor);
    assert bytes[0..4] == LittleEndian32(width);
    assert bytes[4..8] == LittleEndian32(height);
    assert bytes[8..12] == LittleEndian32(factor);
    LittleEndian32RoundTrip(width);
    LittleEndian32RoundTrip(height);
    LittleEndian32RoundTrip(factor);
    assert (PUSH_CONSTANT_RANGES[0].stageFlags & SHADER_STAGE_COMPUTE_BIT) == SHADER_STAGE_COMPUTE_BIT;
  }
}
