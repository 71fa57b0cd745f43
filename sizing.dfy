/** Size and grid arithmetic of `process_image`: the output extent, the output
    buffer's byte length, and the workgroup grid that covers the output. All of
    it is `u32` arithmetic in the source; `SizesFit` is the condition under which
    none of it overflows, and every member here requires it. */
module Sizing {
  import opened VkTypes

  /** The kernel's fixed local workgroup size is 16 x 16 invocations; the grid
      computation and the shader binary share this constant. */
  const WORKGROUP_SIZE: nat := 16

  /** RGBA, 8 bits per channel. */
  const BYTES_PER_PIXEL: nat := 4

  /** The `u32` expressions `width * factor`, `height * factor`,
      `output_width * output_height * 4` and `output_width + 15`,
      `output_height + 15` all stay below 2^32. */
  predicate SizesFit(width: nat, height: nat, factor: nat) {
    && width * factor + (WORKGROUP_SIZE - 1) < U32_LIMIT
    && height * factor + (WORKGROUP_SIZE - 1) < U32_LIMIT
    && width * factor * (height * factor) * BYTES_PER_PIXEL < U32_LIMIT
  }

  datatype Extent = Extent(width: uint32, height: uint32)

  /** `output_width = width * factor; output_height = height * factor`. */
  function OutputExtent(width: uint32, height: uint32, factor: uint32): Extent
    requires SizesFit(width, height, factor)
  {
    Extent(width * factor, height * factor)
  }

  /** Bytes of an RGBA8 image of extent `e`: `output_width * output_height * 4`. */
  function ByteLength(e: Extent): nat {
    e.width * e.height * BYTES_PER_PIXEL
  }

  /** The output image is `factor` times wider and taller, so its pixel buffer is
      `factor^2` times the input's and still a `u32`. */
  lemma OutputIsFactorSquaredLarger(width: uint32, height: uint32, factor: uint32)
    requires SizesFit(width, height, factor)
    ensures OutputExtent(width, height, factor).width == width * factor
    ensures OutputExtent(width, height, factor).height == height * factor
    ensures ByteLength(OutputExtent(width, height, factor))
         == ByteLength(Extent(width, height)) * (factor * factor)
    ensures ByteLength(OutputExtent(width, height, factor)) < U32_LIMIT
  {
    var w, h, f := width as int, height as int, factor as int;
    calc {
      (w * f) * (h * f) * 4;
      { assert (w * f) * (h * f) == (w * h) * (f * f); }
      (w * h) * (f * f) * 4;
      (w * h * 4) * (f * f);
    }
  }

  /** `(extent + 15) / 16`: the number of 16-wide workgroups along one axis.
      It is the ceiling of extent / 16: enough groups to reach `extent`, and
      not one more. */
  function GroupCount(extent: uint32): (groups: uint32)
    requires extent + (WORKGROUP_SIZE - 1) < U32_LIMIT
    ensures groups * WORKGROUP_SIZE >= extent
    ensures (groups - 1) * WORKGROUP_SIZE < extent
  {
    (extent + (WORKGROUP_SIZE - 1)) / WORKGROUP_SIZE
  }

  datatype GroupCounts = GroupCounts(x: uint32, y: uint32, z: uint32)

  predicate GridFits(e: Extent) {
    e.width + (WORKGROUP_SIZE - 1) < U32_LIMIT && e.height + (WORKGROUP_SIZE - 1) < U32_LIMIT
  }

  /** The `cmd_dispatch` arguments for an output of extent `e`. */
  function DispatchGrid(e: Extent): (g: GroupCounts)
    requires GridFits(e)
    ensures g.x == GroupCount(e.width) && g.y == GroupCount(e.height)
    ensures g.z == 1
  {
    GroupCounts(GroupCount(e.width), GroupCount(e.height), 1)
  }

  /** Every output pixel lies in a dispatched workgroup. */
  lemma GridCoversEveryPixel(e: Extent, px: nat, py: nat)
    requires GridFits(e) && px < e.width && py < e.height
    ensures px / WORKGROUP_SIZE < DispatchGrid(e).x
    ensures py / WORKGROUP_SIZE < DispatchGrid(e).y
  {
  }

  /** Every dispatched workgroup holds at least one output pixel. */
  lemma GridHasNoIdleGroup(e: Extent, gx: nat, gy: nat)
    requires GridFits(e) && gx < DispatchGrid(e).x && gy < DispatchGrid(e).y
    ensures gx * WORKGROUP_SIZE < e.width
    ensures gy * WORKGROUP_SIZE < e.height
  {
  }

  /** A 257 x 16 output needs 17 x 1 x 1 groups. */
  lemma Grid257By16()
    ensures DispatchGrid(Extent(257, 16)) == GroupCounts(17, 1, 1)
  {
  }

  /** `SizesFit` on the input covers the grid computation on the output extent. */
  lemma OutputGridFits(width: uint32, height: uint32, factor: uint32)
    requires SizesFit(width, height, factor)
    ensures GridFits(OutputExtent(width, height, factor))
  {
  }
}
