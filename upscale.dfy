/** `process_image` and `create_buffer` as the methods they are: each driver
    call is one replayed step of the script `ProcessScript`, each `?` operator an
    early return that leaves the ledger after the calls made so far, and the
    mapped device memory of each buffer an array the copies write into and read
    from. The driver and the file system are oracles (`Driver`, `Files`). */
module Upscale {
  import opened Outcomes
  import opened VkTypes
  import opened Handles
  import opened Selection
  import opened Sizing
  import opened Bindings
  import opened Context
  import opened Process

  // ---------------------------------------------------------------------------
  // Where each `?` stops

  /** Why and where `process_image` stops early: the ledger calls made before
      the failing step, and the error it returns. */
  datatype Stop = Stop(calls: nat, message: string)

  /** The memory types of the context's physical device. */
  function MemoryTypesOf(ctx: VulkanContext): MemoryTypeArray {
    ctx.physicalDevice.memoryProperties.memoryTypes
  }

  /** The first failing step of `create_buffer` for `role`, in the order of its
      `?` operators, with the number of `BufferScript` calls made before it:
      creating the buffer (none), finding a memory type and allocating the
      memory (the buffer exists), binding it (both exist), mapping it (also
      bound). */
  function BufferStop(drv: Driver, role: Role, types: MemoryTypeArray): (f: Option<Stop>)
    ensures f.Some? ==> f.value.calls <= 3
    ensures f.None? <==>
      && !drv.Fails(CreateBufferObject(role)) && !drv.Fails(AllocateMemory(role))
      && !drv.Fails(BindBufferMemory(role)) && !drv.Fails(MapMemory(role))
      && FindMemoryTypeIndex(drv.Report(role).memoryTypeBits, types).Ok?
  {
    var found := FindMemoryTypeIndex(drv.Report(role).memoryTypeBits, types);
    if drv.Fails(CreateBufferObject(role)) then Some(Stop(0, drv.ErrorOf(CreateBufferObject(role))))
    else if found.Err? then Some(Stop(1, found.error))
    else if drv.Fails(AllocateMemory(role)) then Some(Stop(1, drv.ErrorOf(AllocateMemory(role))))
    else if drv.Fails(BindBufferMemory(role)) then Some(Stop(2, drv.ErrorOf(BindBufferMemory(role))))
    else if drv.Fails(MapMemory(role)) then Some(Stop(3, drv.ErrorOf(MapMemory(role))))
    else None
  }

  /** The first failing step of the descriptor stage: creating the pool (no
      call made), allocating the set (the pool exists). Writing the set cannot
      fail. */
  function DescriptorStop(drv: Driver): (f: Option<Stop>)
    ensures f.Some? ==> f.value.calls <= 1
    ensures f.None? <==> !drv.Fails(CreateDescriptorPool) && !drv.Fails(AllocateDescriptorSets)
  {
    if drv.Fails(CreateDescriptorPool) then Some(Stop(0, drv.ErrorOf(CreateDescriptorPool)))
    else if drv.Fails(AllocateDescriptorSets) then Some(Stop(1, drv.ErrorOf(AllocateDescriptorSets)))
    else None
  }

  /** The recording half of the command stage succeeds: the pool is created,
      the buffer allocated, begun and ended. */
  predicate Recorded(drv: Driver) {
    !drv.Fails(CreateCommandPool) && !drv.Fails(AllocateCommandBuffers)
    && !drv.Fails(BeginCommandBuffer) && !drv.Fails(EndCommandBuffer)
  }

  /** The kernel ran: every call up to and including the submission succeeded. */
  predicate KernelSubmitted(drv: Driver) {
    Recorded(drv) && !drv.Fails(QueueSubmit)
  }

  /** The first failing step of the command stage, with the number of
      `CommandScript` calls made before it: the pool is created by the first,
      and the recording happens between beginning and ending the buffer. */
  function CommandStop(drv: Driver): (f: Option<Stop>)
    ensures f.Some? ==> f.value.calls <= 2
    ensures f.None? <==> KernelSubmitted(drv) && !drv.Fails(QueueWaitIdle)
  {
    if drv.Fails(CreateCommandPool) then Some(Stop(0, drv.ErrorOf(CreateCommandPool)))
    else if drv.Fails(AllocateCommandBuffers) then Some(Stop(1, drv.ErrorOf(AllocateCommandBuffers)))
    else if drv.Fails(BeginCommandBuffer) then Some(Stop(1, drv.ErrorOf(BeginCommandBuffer)))
    else if drv.Fails(EndCommandBuffer) then Some(Stop(2, drv.ErrorOf(EndCommandBuffer)))
    else if drv.Fails(QueueSubmit) then Some(Stop(2, drv.ErrorOf(QueueSubmit)))
    else if drv.Fails(QueueWaitIdle) then Some(Stop(2, drv.ErrorOf(QueueWaitIdle)))
    else None
  }

  /** The first failing step of steps 2 to 4 of `process_image`, each stage at
      its offset in `ProcessScript`: the input buffer, the output buffer, the
      descriptors, the commands. */
  function StagesStop(drv: Driver, ctx: VulkanContext): (f: Option<Stop>)
    ensures f.Some? ==> f.value.calls <= CLEANUP_AT
  {
    var types := MemoryTypesOf(ctx);
    if BufferStop(drv, InputBuffer, types).Some? then
      var s := BufferStop(drv, InputBuffer, types).value;
      Some(Stop(INPUT_AT + s.calls, s.message))
    else if BufferStop(drv, OutputBuffer, types).Some? then
      var s := BufferStop(drv, OutputBuffer, types).value;
      Some(Stop(OUTPUT_AT + s.calls, s.message))
    else if DescriptorStop(drv).Some? then
      var s := DescriptorStop(drv).value;
      Some(Stop(DESCRIPTORS_AT + s.calls, s.message))
    else if CommandStop(drv).Some? then
      var s := CommandStop(drv).value;
      Some(Stop(COMMANDS_AT + s.calls, s.message))
    else None
  }

  /** The first failing step of steps 2 to 5 of `process_image`: the stages,
      then mapping the output memory for the read-back. */
  function RenderStop(drv: Driver, ctx: VulkanContext): (f: Option<Stop>)
    ensures f.Some? ==> f.value.calls <= CLEANUP_AT
  {
    if StagesStop(drv, ctx).Some? then StagesStop(drv, ctx)
    else if drv.Fails(MapOutputMemory) then Some(Stop(CLEANUP_AT, drv.ErrorOf(MapOutputMemory)))
    else None
  }

  /** The first failing step of `process_image` before the image is saved:
      the missing input, the decoder's error, then steps 2 to 5. */
  function SetupStop(drv: Driver, ctx: VulkanContext, files: Files, inputPath: string): (f: Option<Stop>)
    ensures f.Some? ==> f.value.calls <= CLEANUP_AT
  {
    if !files.inputExists then Some(Stop(0, INPUT_MISSING_PREFIX + inputPath))
    else if files.decoded.Err? then Some(Stop(0, files.decoded.error))
    else RenderStop(drv, ctx)
  }

  /** The first failing step of `process_image`: a failure before saving, the
      saver's error, or an output file that does not exist afterwards. Every
      failure comes before the cleanup. */
  function ProcessStop(drv: Driver, ctx: VulkanContext, files: Files, inputPath: string): (f: Option<Stop>)
    ensures f.Some? ==> f.value.calls <= CLEANUP_AT
    ensures SetupStop(drv, ctx, files, inputPath).Some? ==> f == SetupStop(drv, ctx, files, inputPath)
    ensures f.None? <==>
      SetupStop(drv, ctx, files, inputPath).None? && files.saveError.None? && files.outputExists
  {
    if SetupStop(drv, ctx, files, inputPath).Some? then SetupStop(drv, ctx, files, inputPath)
    else if files.saveError.Some? then Some(Stop(CLEANUP_AT, SAVE_FAILED_PREFIX + files.saveError.value))
    else if !files.outputExists then Some(Stop(CLEANUP_AT, OUTPUT_NOT_CREATED))
    else None
  }

  // ---------------------------------------------------------------------------
  // Device memory

  /** What the kernel leaves in memory `m`: its output from offset 0, the rest
      untouched. */
  function KernelWrites(m: seq<byte>, k: seq<byte>): (w: seq<byte>)
    ensures |w| == |m|
    ensures forall i :: 0 <= i < |m| && i < |k| ==> w[i] == k[i]
    ensures forall i :: |k| <= i < |m| ==> w[i] == m[i]
  {
    seq(|m|, i requires 0 <= i < |m| => if i < |k| then k[i] else m[i])
  }

  /** The `len` bytes read back after the kernel wrote `k` over an output
      buffer uploaded as zeros. */
  function KernelImage(len: nat, k: seq<byte>): (image: seq<byte>)
    ensures |image| == len
    ensures forall i :: 0 <= i < len ==> image[i] == if i < |k| then k[i] else 0
  {
    seq(len, i requires 0 <= i < len => if i < |k| then k[i] else 0)
  }

  /** Reading back the first `len` bytes of an output memory whose first `len`
      bytes were uploaded as zeros gives the kernel's image. */
  lemma ReadBackIsKernelImage(m: seq<byte>, k: seq<byte>, len: nat)
    requires len <= |m| && m[..len] == seq(len, _ => 0)
    ensures KernelWrites(m, k)[..len] == KernelImage(len, k)
  {
    var w, image := KernelWrites(m, k), KernelImage(len, k);
    assert forall i :: 0 <= i < len ==> m[i] == m[..len][i] == 0;
    assert forall i :: 0 <= i < len ==> w[..len][i] == image[i];
  }

  /** The copy of `create_buffer`: `data` into the start of the mapped memory. */
  method Upload(memory: array<byte>, data: seq<byte>)
    requires |data| <= memory.Length
    modifies memory
    ensures memory[..|data|] == data
    ensures memory[|data|..] == old(memory[|data|..])
  {
    var i := 0;
    while i < |data|
      invariant 0 <= i <= |data|
      invariant forall j :: 0 <= j < i ==> memory[j] == data[j]
      invariant forall j :: i <= j < memory.Length ==> memory[j] == old(memory[j])
    {
      memory[i] := data[i];
      i := i + 1;
    }
    assert memory[..|data|] == data;
    assert memory[|data|..] == old(memory[|data|..]);
  }

  /** The read-back of `process_image`: a zeroed vector of `len` bytes filled
      from offset 0 of the mapped output memory. */
  method ReadBack(memory: array<byte>, len: nat) returns (out: array<byte>)
    requires len <= memory.Length
    ensures fresh(out)
    ensures out[..] == memory[..len]
  {
    out := new byte[len](_ => 0);
    var i := 0;
    while i < len
      invariant 0 <= i <= len
      invariant forall j :: 0 <= j < i ==> out[j] == memory[j]
    {
      out[i] := memory[i];
      i := i + 1;
    }
    assert out[..] == memory[..len];
  }

  // ---------------------------------------------------------------------------
  // The stages

  /** Driver call `n` of the script `P` started from `s0`, which is `op`. */
  method Replay(ledger: Ledger, op: Op, ghost s0: LedgerState, ghost P: seq<Op>, ghost n: nat)
    returns (h: Handle)
    requires Runs(s0, P) && n < |P| && P[n] == op && ledger.state == Run(s0, P[..n])
    modifies ledger
    ensures ledger.state == Run(s0, P[..n + 1])
    ensures ledger.state.next == old(ledger.state.next) + if op.Make? then 1 else 0
    ensures h == old(ledger.state.next)
  {
    assert Enabled(Run(s0, P[..n]), P[n]);
    RunNext(s0, P, n);
    h := ledger.state.next;
    match op
    case Make(k, on) =>
      h := ledger.Create(k, on);
    case Link(t, on) =>
      ledger.Depend(t, on);
    case Free(t, k) =>
      ledger.Destroy(t, k);
  }

  /** A buffer `create_buffer` made: its handle, its memory's handle, the memory
      type chosen, and the bytes of the memory. */
  datatype BufferObjects = BufferObjects(buffer: Handle, memory: Handle, memoryTypeIndex: nat, contents: array<byte>)

  /** The second half of `create_buffer`, once the buffer exists and a memory
      type is chosen: allocate `size` bytes of that type, bind the buffer to
      them, map them and copy `data` to their start. The ledger has made the
      first call of `BufferScript(ctx.device, buffer)`, found in `P` at `o`. */
  method BackBuffer(ledger: Ledger, drv: Driver, ctx: VulkanContext, role: Role, data: seq<byte>, size: nat,
                    buffer: Handle, ghost s0: LedgerState, ghost P: seq<Op>, ghost o: nat)
    returns (r: Result<(Handle, array<byte>), string>)
    requires |data| <= size
    requires Runs(s0, P) && o + 3 <= |P| && P[o..o + 3] == BufferScript(ctx.device, buffer)
    requires ledger.state == Run(s0, P[..o + 1]) && ledger.state.next == buffer + 1
    modifies ledger
    ensures drv.Fails(AllocateMemory(role)) ==>
      r == Err(drv.ErrorOf(AllocateMemory(role))) && ledger.state == old(ledger.state)
    ensures !drv.Fails(AllocateMemory(role)) && drv.Fails(BindBufferMemory(role)) ==>
      r == Err(drv.ErrorOf(BindBufferMemory(role))) && ledger.state == Run(s0, P[..o + 2])
    ensures !drv.Fails(AllocateMemory(role)) && !drv.Fails(BindBufferMemory(role)) && drv.Fails(MapMemory(role)) ==>
      r == Err(drv.ErrorOf(MapMemory(role))) && ledger.state == Run(s0, P[..o + 3])
    ensures r.Ok? <==> !drv.Fails(AllocateMemory(role)) && !drv.Fails(BindBufferMemory(role)) && !drv.Fails(MapMemory(role))
    ensures r.Ok? ==>
      && ledger.state == Run(s0, P[..o + 3])
      && r.value.0 == buffer + 1 && ledger.state.next == buffer + 2
      && fresh(r.value.1) && r.value.1.Length == size && r.value.1[..|data|] == data
  {
    ghost var S := BufferScript(ctx.device, buffer);
    assert P[o + 1] == S[1] && P[o + 2] == S[2];
    if drv.Fails(AllocateMemory(role)) {
      return Err(drv.ErrorOf(AllocateMemory(role)));
    }
    var memory := Replay(ledger, Make(DeviceMemory, {ctx.device}), s0, P, o + 1);
    var contents := new byte[size](_ => 0);
    if drv.Fails(BindBufferMemory(role)) {
      return Err(drv.ErrorOf(BindBufferMemory(role)));
    }
    var _ := Replay(ledger, Link(buffer, {memory}), s0, P, o + 2);
    if drv.Fails(MapMemory(role)) {
      return Err(drv.ErrorOf(MapMemory(role)));
    }
    Upload(contents, data);
    r := Ok((memory, contents));
  }

  /** `create_buffer`: a buffer of `|data|` bytes, memory of the size the driver
      requires (`|data|` plus its slack) in the lowest suitable memory type, the
      buffer bound to it, and `data` copied to its start. The calls are
      `BufferScript(ctx.device, b)`, found in `P` at `o`. */
  method CreateBuffer(ledger: Ledger, drv: Driver, ctx: VulkanContext, role: Role, data: seq<byte>,
                      ghost s0: LedgerState, ghost P: seq<Op>, ghost o: nat, b: Handle)
    returns (r: Result<BufferObjects, string>)
    requires Runs(s0, P) && o + 3 <= |P| && P[o..o + 3] == BufferScript(ctx.device, b)
    requires ledger.state == Run(s0, P[..o]) && ledger.state.next == b
    modifies ledger
    ensures var f := BufferStop(drv, role, MemoryTypesOf(ctx));
      && (r.Err? <==> f.Some?)
      && (r.Err? ==> ledger.state == Run(s0, P[..o + f.value.calls]) && r.error == f.value.message)
    ensures r.Ok? ==>
      && ledger.state == Run(s0, P[..o + 3])
      && ledger.state.next == b + 2
      && r.value.buffer == b && r.value.memory == b + 1
      && FindMemoryTypeIndex(drv.Report(role).memoryTypeBits, MemoryTypesOf(ctx)) == Ok(r.value.memoryTypeIndex)
      && fresh(r.value.contents)
      && r.value.contents.Length == |data| + drv.Report(role).slack
      && r.value.contents[..|data|] == data
  {
    assert P[o] == BufferScript(ctx.device, b)[0];
    var report := drv.Report(role);
    if drv.Fails(CreateBufferObject(role)) {
      return Err(drv.ErrorOf(CreateBufferObject(role)));
    }
    var buffer := Replay(ledger, Make(Buffer, {ctx.device}), s0, P, o);
    var requirements := MemoryRequirements(|data| + report.slack, report.alignment, report.memoryTypeBits);
    var found := FindMemoryTypeIndex(requirements.memoryTypeBits, MemoryTypesOf(ctx));
    if found.Err? {
      return Err(found.error);
    }
    var backed := BackBuffer(ledger, drv, ctx, role, data, requirements.size, buffer, s0, P, o);
    if backed.Err? {
      return Err(backed.error);
    }
    r := Ok(BufferObjects(buffer, backed.value.0, found.value, backed.value.1));
  }

  /** The descriptor stage's objects: the pool, how it was sized, the set
      allocated from it, and the writes that bind the two buffers. */
  datatype DescriptorObjects = DescriptorObjects(
    pool: Handle, poolInfo: DescriptorPoolInfo, descriptorSet: nat, writes: seq<DescriptorWrite>)

  /** Step 3 of `process_image`: a pool for one set of two storage buffers, the
      set allocated with the context's layout, and its two bindings written with
      the input and output buffers. The calls are `DescriptorScript(ctx, b,
      input, output)`, found in `P` at `o`. */
  method BindDescriptors(ledger: Ledger, drv: Driver, ctx: VulkanContext, input: Handle, output: Handle,
                         ghost s0: LedgerState, ghost P: seq<Op>, ghost o: nat, b: Handle)
    returns (r: Result<DescriptorObjects, string>)
    requires Runs(s0, P) && o + 3 <= |P| && P[o..o + 3] == DescriptorScript(ctx, b, input, output)
    requires ledger.state == Run(s0, P[..o]) && ledger.state.next == b
    modifies ledger
    ensures var f := DescriptorStop(drv);
      && (r.Err? <==> f.Some?)
      && (r.Err? ==> ledger.state == Run(s0, P[..o + f.value.calls]) && r.error == f.value.message)
    ensures r.Ok? ==>
      && ledger.state == Run(s0, P[..o + 3])
      && ledger.state.next == b + 1
      && r.value.pool == b
      && r.value.poolInfo == DESCRIPTOR_POOL_INFO
      && r.value.descriptorSet == drv.descriptorSet
      && r.value.writes == DescriptorWrites(drv.descriptorSet, input, output)
  {
    ghost var S := DescriptorScript(ctx, b, input, output);
    assert P[o] == S[0] && P[o + 1] == S[1] && P[o + 2] == S[2];
    var poolInfo := DESCRIPTOR_POOL_INFO;
    if drv.Fails(CreateDescriptorPool) {
      return Err(drv.ErrorOf(CreateDescriptorPool));
    }
    var pool := Replay(ledger, Make(DescriptorPool, {ctx.device}), s0, P, o);
    if drv.Fails(AllocateDescriptorSets) {
      return Err(drv.ErrorOf(AllocateDescriptorSets));
    }
    var _ := Replay(ledger, Link(pool, {ctx.descriptorSetLayout}), s0, P, o + 1);
    var descriptorSet := drv.descriptorSet;
    var writes := DescriptorWrites(descriptorSet, input, output);
    var _ := Replay(ledger, Link(pool, {input, output}), s0, P, o + 2);
    r := Ok(DescriptorObjects(pool, poolInfo, descriptorSet, writes));
  }

  /** What step 4 recorded and submitted: the command pool, the command buffer,
      the 12 push-constant bytes and the dispatch grid. */
  datatype Submission = Submission(pool: Handle, commandBuffer: nat, pushConstants: seq<byte>, grid: GroupCounts)

  /** The recording half of step 4 of `process_image`: a command pool and
      buffer, then the recording (bind the pipeline and the descriptor set, push
      `[width, height, factor]`, dispatch enough 16 x 16 groups to cover the
      output). The calls are `CommandScript(ctx, b, descriptorPool)`, found in
      `P` at `o`. */
  method Record(ledger: Ledger, drv: Driver, ctx: VulkanContext, descriptorPool: Handle,
                width: uint32, height: uint32, factor: uint32,
                ghost s0: LedgerState, ghost P: seq<Op>, ghost o: nat, b: Handle)
    returns (r: Result<Submission, string>)
    requires SizesFit(width, height, factor)
    requires Runs(s0, P) && o + 2 <= |P| && P[o..o + 2] == CommandScript(ctx, b, descriptorPool)
    requires ledger.state == Run(s0, P[..o]) && ledger.state.next == b
    modifies ledger
    ensures r.Ok? <==> Recorded(drv)
    ensures drv.Fails(CreateCommandPool) ==>
      r == Err(drv.ErrorOf(CreateCommandPool)) && ledger.state == old(ledger.state)
    ensures !drv.Fails(CreateCommandPool) && drv.Fails(AllocateCommandBuffers) ==>
      r == Err(drv.ErrorOf(AllocateCommandBuffers)) && ledger.state == Run(s0, P[..o + 1])
    ensures !drv.Fails(CreateCommandPool) && !drv.Fails(AllocateCommandBuffers) && drv.Fails(BeginCommandBuffer) ==>
      r == Err(drv.ErrorOf(BeginCommandBuffer)) && ledger.state == Run(s0, P[..o + 1])
    ensures !drv.Fails(CreateCommandPool) && !drv.Fails(AllocateCommandBuffers) && !drv.Fails(BeginCommandBuffer) ==>
      ledger.state == Run(s0, P[..o + 2])
    ensures (!drv.Fails(CreateCommandPool) && !drv.Fails(AllocateCommandBuffers) && !drv.Fails(BeginCommandBuffer)
             && drv.Fails(EndCommandBuffer)) ==> r == Err(drv.ErrorOf(EndCommandBuffer))
    ensures Recorded(drv) ==>
      && r.value.pool == b
      && r.value.commandBuffer == drv.commandBuffer
      && r.value.pushConstants == PushBlock(width, height, factor)
      && r.value.grid == DispatchGrid(OutputExtent(width, height, factor))
  {
    ghost var S := CommandScript(ctx, b, descriptorPool);
    assert P[o] == S[0] && P[o + 1] == S[1];
    var extent := OutputExtent(width, height, factor);
    OutputGridFits(width, height, factor);
    if drv.Fails(CreateCommandPool) {
      return Err(drv.ErrorOf(CreateCommandPool));
    }
    var pool := Replay(ledger, Make(CommandPool, {ctx.device}), s0, P, o);
    if drv.Fails(AllocateCommandBuffers) {
      return Err(drv.ErrorOf(AllocateCommandBuffers));
    }
    var commandBuffer := drv.commandBuffer;
    if drv.Fails(BeginCommandBuffer) {
      return Err(drv.ErrorOf(BeginCommandBuffer));
    }
    var _ := Replay(ledger, Link(pool, {ctx.pipeline, ctx.pipelineLayout, descriptorPool}), s0, P, o + 1);
    var pushConstants := PushBlock(width, height, factor);
    var grid := DispatchGrid(extent);
    if drv.Fails(EndCommandBuffer) {
      return Err(drv.ErrorOf(EndCommandBuffer));
    }
    r := Ok(Submission(pool, commandBuffer, pushConstants, grid));
  }

  /** The submission half of step 4: submit the recorded buffer, which makes
      the kernel write its output over the output memory, then wait for the
      queue. */
  method Submit(drv: Driver, output: array<byte>) returns (r: Result<(), string>)
    modifies output
    ensures r == if drv.Fails(QueueSubmit) then Err(drv.ErrorOf(QueueSubmit))
                 else if drv.Fails(QueueWaitIdle) then Err(drv.ErrorOf(QueueWaitIdle))
                 else Ok(())
    ensures output[..] == if drv.Fails(QueueSubmit) then old(output[..])
                          else KernelWrites(old(output[..]), drv.kernelOutput)
  {
    if drv.Fails(QueueSubmit) {
      return Err(drv.ErrorOf(QueueSubmit));
    }
    ghost var before := output[..];
    forall i | 0 <= i < output.Length && i < |drv.kernelOutput| {
      output[i] := drv.kernelOutput[i];
    }
    assert output[..] == KernelWrites(before, drv.kernelOutput);
    if drv.Fails(QueueWaitIdle) {
      return Err(drv.ErrorOf(QueueWaitIdle));
    }
    r := Ok(());
  }

  /** Step 4 of `process_image`: record, then submit and wait. */
  method RecordAndSubmit(ledger: Ledger, drv: Driver, ctx: VulkanContext, descriptorPool: Handle,
                         width: uint32, height: uint32, factor: uint32, output: array<byte>,
                         ghost s0: LedgerState, ghost P: seq<Op>, ghost o: nat, b: Handle)
    returns (r: Result<Submission, string>)
    requires SizesFit(width, height, factor)
    requires Runs(s0, P) && o + 2 <= |P| && P[o..o + 2] == CommandScript(ctx, b, descriptorPool)
    requires ledger.state == Run(s0, P[..o]) && ledger.state.next == b
    modifies ledger, output
    ensures var f := CommandStop(drv);
      && (r.Err? <==> f.Some?)
      && (r.Err? ==> ledger.state == Run(s0, P[..o + f.value.calls]) && r.error == f.value.message)
    ensures output[..] == if KernelSubmitted(drv) then KernelWrites(old(output[..]), drv.kernelOutput)
                          else old(output[..])
    ensures r.Ok? ==>
      && ledger.state == Run(s0, P[..o + 2])
      && r.value.pool == b
      && r.value.commandBuffer == drv.commandBuffer
      && r.value.pushConstants == PushBlock(width, height, factor)
      && r.value.grid == DispatchGrid(OutputExtent(width, height, factor))
  {
    r := Record(ledger, drv, ctx, descriptorPool, width, height, factor, s0, P, o, b);
    if r.Err? {
      return;
    }
    var submitted := Submit(drv, output);
    if submitted.Err? {
      return Err(submitted.error);
    }
  }

  /** The cleanup of `process_image`: the six objects of the upscale destroyed
      in `CleanupScript`'s order, found in `P` at `o`. */
  method Cleanup(ledger: Ledger, ghost s0: LedgerState, ghost P: seq<Op>, ghost o: nat, b: Handle)
    requires Runs(s0, P) && o + 6 <= |P| && P[o..o + 6] == CleanupScript(b)
    requires ledger.state == Run(s0, P[..o])
    modifies ledger
    ensures ledger.state == Run(s0, P[..o + 6])
  {
    ghost var K := CleanupScript(b);
    assert P[o] == K[0] && P[o + 1] == K[1] && P[o + 2] == K[2];
    assert P[o + 3] == K[3] && P[o + 4] == K[4] && P[o + 5] == K[5];
    var _ := Replay(ledger, Free(b + 5, CommandPool), s0, P, o);
    var _ := Replay(ledger, Free(b + 4, DescriptorPool), s0, P, o + 1);
    var _ := Replay(ledger, Free(b, Buffer), s0, P, o + 2);
    var _ := Replay(ledger, Free(b + 1, DeviceMemory), s0, P, o + 3);
    var _ := Replay(ledger, Free(b + 2, Buffer), s0, P, o + 4);
    var _ := Replay(ledger, Free(b + 3, DeviceMemory), s0, P, o + 5);
  }

  /** Step 2 of `process_image`: the input buffer holding `pixels` and the
      output buffer of `outLen` zeros, handles issued from `b`, their calls the
      first two stages of `P`. */
  method MakeBuffers(ledger: Ledger, drv: Driver, ctx: VulkanContext, pixels: seq<byte>, outLen: nat,
                     ghost s0: LedgerState, ghost P: seq<Op>, b: Handle)
    returns (r: Result<(BufferObjects, BufferObjects), string>)
    requires Runs(s0, P) && DESCRIPTORS_AT <= |P|
    requires P[INPUT_AT..OUTPUT_AT] == BufferScript(ctx.device, b)
    requires P[OUTPUT_AT..DESCRIPTORS_AT] == BufferScript(ctx.device, b + 2)
    requires ledger.state == s0 && s0.next == b
    modifies ledger
    ensures var input := BufferStop(drv, InputBuffer, MemoryTypesOf(ctx));
      input.Some? ==> r == Err(input.value.message) && ledger.state == Run(s0, P[..INPUT_AT + input.value.calls])
    ensures var input, output := BufferStop(drv, InputBuffer, MemoryTypesOf(ctx)), BufferStop(drv, OutputBuffer, MemoryTypesOf(ctx));
      input.None? && output.Some? ==>
        r == Err(output.value.message) && ledger.state == Run(s0, P[..OUTPUT_AT + output.value.calls])
    ensures r.Ok? <==>
      BufferStop(drv, InputBuffer, MemoryTypesOf(ctx)).None? && BufferStop(drv, OutputBuffer, MemoryTypesOf(ctx)).None?
    ensures r.Ok? ==>
      && ledger.state == Run(s0, P[..DESCRIPTORS_AT]) && ledger.state.next == b + 4
      && r.value.0.buffer == b && r.value.1.buffer == b + 2
      && fresh(r.value.0.contents) && |pixels| <= r.value.0.contents.Length
      && r.value.0.contents[..|pixels|] == pixels
      && fresh(r.value.1.contents) && outLen <= r.value.1.contents.Length
      && r.value.1.contents[..outLen] == seq(outLen, _ => 0)
      && r.value.0.contents != r.value.1.contents
  {
    assert P[..INPUT_AT] == [];
    var input := CreateBuffer(ledger, drv, ctx, InputBuffer, pixels, s0, P, INPUT_AT, b);
    if input.Err? {
      return Err(input.error);
    }
    var zeros := seq(outLen, _ => 0);
    var output := CreateBuffer(ledger, drv, ctx, OutputBuffer, zeros, s0, P, OUTPUT_AT, b + 2);
    if output.Err? {
      return Err(output.error);
    }
    r := Ok((input.value, output.value));
  }

  /** Steps 3 and 4 of `process_image` on the buffers `b` (input) and `b + 2`
      (output, whose memory is `output`), their calls the next two stages of
      `P`. */
  method Dispatch(ledger: Ledger, drv: Driver, ctx: VulkanContext, output: array<byte>,
                  width: uint32, height: uint32, factor: uint32, ghost s0: LedgerState, ghost P: seq<Op>, b: Handle)
    returns (r: Result<Submission, string>)
    requires SizesFit(width, height, factor)
    requires Runs(s0, P) && CLEANUP_AT <= |P|
    requires P[DESCRIPTORS_AT..COMMANDS_AT] == DescriptorScript(ctx, b + 4, b, b + 2)
    requires P[COMMANDS_AT..CLEANUP_AT] == CommandScript(ctx, b + 5, b + 4)
    requires ledger.state == Run(s0, P[..DESCRIPTORS_AT]) && ledger.state.next == b + 4
    modifies ledger, output
    ensures DescriptorStop(drv).Some? ==>
      && r == Err(DescriptorStop(drv).value.message)
      && ledger.state == Run(s0, P[..DESCRIPTORS_AT + DescriptorStop(drv).value.calls])
    ensures DescriptorStop(drv).None? && CommandStop(drv).Some? ==>
      && r == Err(CommandStop(drv).value.message)
      && ledger.state == Run(s0, P[..COMMANDS_AT + CommandStop(drv).value.calls])
    ensures r.Ok? <==> DescriptorStop(drv).None? && CommandStop(drv).None?
    ensures r.Ok? ==> ledger.state == Run(s0, P[..CLEANUP_AT])
    ensures output[..] == if DescriptorStop(drv).None? && KernelSubmitted(drv)
                          then KernelWrites(old(output[..]), drv.kernelOutput) else old(output[..])
  {
    var descriptors := BindDescriptors(ledger, drv, ctx, b, b + 2, s0, P, DESCRIPTORS_AT, b + 4);
    if descriptors.Err? {
      return Err(descriptors.error);
    }
    r := RecordAndSubmit(ledger, drv, ctx, descriptors.value.pool, width, height, factor, output, s0, P, COMMANDS_AT, b + 5);
  }

  /** Steps 2 to 5 of `process_image` for the decoded `image`: the buffers,
      the descriptors, the commands, and the read-back of the output image,
      their calls the first `CLEANUP_AT` of `P`. */
  method Render(ledger: Ledger, drv: Driver, ctx: VulkanContext, image: DecodedImage, factor: uint32,
                ghost s0: LedgerState, ghost P: seq<Op>, b: Handle)
    returns (r: Result<seq<byte>, string>)
    requires SizesFit(image.width, image.height, factor)
    requires Runs(s0, P) && CLEANUP_AT <= |P|
    requires P[INPUT_AT..OUTPUT_AT] == BufferScript(ctx.device, b)
    requires P[OUTPUT_AT..DESCRIPTORS_AT] == BufferScript(ctx.device, b + 2)
    requires P[DESCRIPTORS_AT..COMMANDS_AT] == DescriptorScript(ctx, b + 4, b, b + 2)
    requires P[COMMANDS_AT..CLEANUP_AT] == CommandScript(ctx, b + 5, b + 4)
    requires ledger.state == s0 && s0.next == b
    modifies ledger
    ensures var f := RenderStop(drv, ctx);
      && (r.Err? <==> f.Some?)
      && (r.Err? ==> ledger.state == Run(s0, P[..f.value.calls]) && r.error == f.value.message)
    ensures r.Ok? ==>
      && ledger.state == Run(s0, P[..CLEANUP_AT])
      && r.value == KernelImage(ByteLength(OutputExtent(image.width, image.height, factor)), drv.kernelOutput)
  {
    var extent := OutputExtent(image.width, image.height, factor);
    var outLen := ByteLength(extent);
    var buffers := MakeBuffers(ledger, drv, ctx, image.pixels, outLen, s0, P, b);
    if buffers.Err? {
      return Err(buffers.error);
    }
    var output := buffers.value.1.contents;
    ghost var uploaded := output[..];
    var submitted := Dispatch(ledger, drv, ctx, output, image.width, image.height, factor, s0, P, b);
    if submitted.Err? {
      return Err(submitted.error);
    }
    if drv.Fails(MapOutputMemory) {
      return Err(drv.ErrorOf(MapOutputMemory));
    }
    var pixels := ReadBack(output, outLen);
    ReadBackIsKernelImage(uploaded, drv.kernelOutput, outLen);
    r := Ok(pixels[..]);
  }

  /** The body of `process_image` on the script `P`, its stages given by
      `ProcessStages`, from `s0` with handles issued from `b`. */
  method ProcessOn(ledger: Ledger, drv: Driver, ctx: VulkanContext, files: Files, inputPath: string,
                   outputPath: string, factor: uint32, ghost s0: LedgerState, ghost P: seq<Op>, b: Handle)
    returns (r: Result<(), string>, saved: Option<SavedImage>)
    requires files.decoded.Ok? ==> SizesFit(files.decoded.value.width, files.decoded.value.height, factor)
    requires Runs(s0, P) && |P| == PROCESS_CALLS
    requires P[INPUT_AT..OUTPUT_AT] == BufferScript(ctx.device, b)
    requires P[OUTPUT_AT..DESCRIPTORS_AT] == BufferScript(ctx.device, b + 2)
    requires P[DESCRIPTORS_AT..COMMANDS_AT] == DescriptorScript(ctx, b + 4, b, b + 2)
    requires P[COMMANDS_AT..CLEANUP_AT] == CommandScript(ctx, b + 5, b + 4)
    requires P[CLEANUP_AT..PROCESS_CALLS] == CleanupScript(b)
    requires ledger.state == s0 && s0.next == b
    modifies ledger
    ensures var f := ProcessStop(drv, ctx, files, inputPath);
      && (r.Err? <==> f.Some?)
      && (r.Err? ==> ledger.state == Run(s0, P[..f.value.calls]) && r.error == f.value.message)
    ensures r.Ok? ==> ledger.state == Run(s0, P)
    ensures saved.Some? <==> SetupStop(drv, ctx, files, inputPath).None?
    ensures saved.Some? ==>
      var image := files.decoded.value;
      var extent := OutputExtent(image.width, image.height, factor);
      saved.value == SavedImage(outputPath, extent.width, extent.height, KernelImage(ByteLength(extent), drv.kernelOutput))
  {
    saved := None;
    assert P[..0] == [];
    if !files.inputExists {
      return Err(INPUT_MISSING_PREFIX + inputPath), saved;
    }
    if files.decoded.Err? {
      return Err(files.decoded.error), saved;
    }
    var image := files.decoded.value;
    var extent := OutputExtent(image.width, image.height, factor);
    var rendered := Render(ledger, drv, ctx, image, factor, s0, P, b);
    if rendered.Err? {
      return Err(rendered.error), saved;
    }
    saved := Some(SavedImage(outputPath, extent.width, extent.height, rendered.value));
    if files.saveError.Some? {
      return Err(SAVE_FAILED_PREFIX + files.saveError.value), saved;
    }
    if !files.outputExists {
      return Err(OUTPUT_NOT_CREATED), saved;
    }
    Cleanup(ledger, s0, P, CLEANUP_AT, b);
    assert P[..CLEANUP_AT + 6] == P;
    r := Ok(());
  }

  /** `process_image(context, input, output, factor)` on a live context: it
      either fails at the first failing step, leaving the objects it created
      up to there alive (the first `CREATED_AFTER[calls]` of `SETUP_KINDS`), or saves the upscaled image and destroys everything it
      created, leaving the context as droppable as it found it. */
  method ProcessImage(ledger: Ledger, drv: Driver, ctx: VulkanContext, files: Files, inputPath: string,
                      outputPath: string, factor: uint32)
    returns (r: Result<(), string>, saved: Option<SavedImage>)
    requires CanDrop(ledger.state, ctx)
    requires files.decoded.Ok? ==> SizesFit(files.decoded.value.width, files.decoded.value.height, factor)
    modifies ledger
    ensures var f := ProcessStop(drv, ctx, files, inputPath);
      && (r.Err? <==> f.Some?)
      && (r.Err? ==> ledger.state == Run(old(ledger.state), ProcessScript(ctx, old(ledger.state.next))[..f.value.calls])
                     && r.error == f.value.message)
      && (r.Err? ==> LeftBehind(old(ledger.state), ledger.state, f.value.calls))
      && (r.Err? && f.value.calls > 0 ==> !Runs(ledger.state, DropScript(ctx)))
    ensures r.Ok? ==>
      && ledger.state == Run(old(ledger.state), ProcessScript(ctx, old(ledger.state.next)))
      && ledger.state.live == old(ledger.state.live)
      && CanDrop(ledger.state, ctx)
    ensures saved.Some? <==> SetupStop(drv, ctx, files, inputPath).None?
    ensures saved.Some? ==>
      var image := files.decoded.value;
      var extent := OutputExtent(image.width, image.height, factor);
      saved.value == SavedImage(outputPath, extent.width, extent.height, KernelImage(ByteLength(extent), drv.kernelOutput))
  {
    ghost var s0 := ledger.state;
    var b := ledger.state.next;
    ghost var P := ProcessScript(ctx, b);
    ProcessScriptRuns(s0, ctx);
    ProcessStages(ctx, b);
    r, saved := ProcessOn(ledger, drv, ctx, files, inputPath, outputPath, factor, s0, P, b);
    if r.Ok? {
      ProcessScriptResult(s0, ctx);
    } else {
      ghost var calls := ProcessStop(drv, ctx, files, inputPath).value.calls;
      EarlyReturnKeepsCreated(s0, ctx, calls);
      if calls > 0 {
        EarlyReturnBlocksDrop(s0, ctx, calls);
      }
    }
  }
}
