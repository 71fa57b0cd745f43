/** `process_image` and `create_buffer`: the objects one upscale creates on a
    live context, in the order it creates and destroys them, the bytes it
    copies into and out of device memory, and the error it returns from each
    of its `?` operators. The driver and the file system are oracles. */
module Process {
  import opened Outcomes
  import opened VkTypes
  import opened Handles
  import opened Selection
  import opened Sizing
  import opened Bindings
  import opened Context

  /** What the file system answers for one `process_image` call. */
  datatype Files = Files(
    inputExists: bool,                       // Path::new(input).exists()
    decoded: Result<DecodedImage, string>,   // image::open(input)?.to_rgba8(), or the error's text
    saveError: Option<string>,               // what image::save_buffer fails with, if it does
    outputExists: bool)                      // Path::new(output).exists() after saving

  /** An RGBA8 image: its dimensions and its raw bytes. */
  datatype Rgba8 = Rgba8(width: uint32, height: uint32, pixels: seq<byte>)

  /** What `to_rgba8` returns: four bytes for each of the `width * height`
      pixels. */
  type DecodedImage = image: Rgba8 | |image.pixels| == ByteLength(Extent(image.width, image.height))
    witness Rgba8(0, 0, [])

  /** The image `process_image` hands to `image::save_buffer`. */
  datatype SavedImage = SavedImage(path: string, width: uint32, height: uint32, pixels: seq<byte>)

  const INPUT_MISSING_PREFIX := "Input image file does not exist: "
  const SAVE_FAILED_PREFIX := "Failed to save output image: "
  const OUTPUT_NOT_CREATED := "Output file was not created despite successful processing"

  // ---------------------------------------------------------------------------
  // The ledger calls of one upscale

  /** `create_buffer`: the buffer (handle `b`), its memory (`b + 1`), and the
      binding that makes the buffer refer to the memory. */
  function BufferScript(device: Handle, b: Handle): seq<Op> {
    [Make(Buffer, {device}), Make(DeviceMemory, {device}), Link(b, {b + 1})]
  }

  /** Step 3: the descriptor pool (`b`), the set allocated from it with the
      context's layout, and the writes that bind the two buffers to that set. */
  function DescriptorScript(ctx: VulkanContext, b: Handle, input: Handle, output: Handle): seq<Op> {
    [Make(DescriptorPool, {ctx.device}), Link(b, {ctx.descriptorSetLayout}), Link(b, {input, output})]
  }

  /** Step 4: the command pool (`b`) and the recording into its command buffer,
      which refers to the pipeline, its layout and the descriptor set. */
  function CommandScript(ctx: VulkanContext, b: Handle, pool: Handle): seq<Op> {
    [Make(CommandPool, {ctx.device}), Link(b, {ctx.pipeline, ctx.pipelineLayout, pool})]
  }

  /** The cleanup at the end of `process_image`, objects issued from `b`:
      command pool, descriptor pool, input buffer, input memory, output buffer,
      output memory. */
  function CleanupScript(b: Handle): seq<Op> {
    [Free(b + 5, CommandPool), Free(b + 4, DescriptorPool), Free(b, Buffer),
     Free(b + 1, DeviceMemory), Free(b + 2, Buffer), Free(b + 3, DeviceMemory)]
  }

  /** Steps 2 to 4 of `process_image`, handles issued from `b`: both buffers,
      the descriptor pool and the command pool. */
  function SetupScript(ctx: VulkanContext, b: Handle): seq<Op> {
    BufferScript(ctx.device, b) + BufferScript(ctx.device, b + 2)
    + DescriptorScript(ctx, b + 4, b, b + 2) + CommandScript(ctx, b + 5, b + 4)
  }

  /** Every ledger call of a `process_image` that succeeds, handles issued from `b`. */
  function ProcessScript(ctx: VulkanContext, b: Handle): seq<Op> {
    SetupScript(ctx, b) + CleanupScript(b)
  }

  /** Where each stage's calls sit in the script. */
  const INPUT_AT := 0
  const OUTPUT_AT := 3
  const DESCRIPTORS_AT := 6
  const COMMANDS_AT := 9
  const CLEANUP_AT := 11
  const PROCESS_CALLS := 17

  lemma ProcessStages(ctx: VulkanContext, b: Handle)
    ensures |ProcessScript(ctx, b)| == PROCESS_CALLS
    ensures ProcessScript(ctx, b)[INPUT_AT..OUTPUT_AT] == BufferScript(ctx.device, b)
    ensures ProcessScript(ctx, b)[OUTPUT_AT..DESCRIPTORS_AT] == BufferScript(ctx.device, b + 2)
    ensures ProcessScript(ctx, b)[DESCRIPTORS_AT..COMMANDS_AT] == DescriptorScript(ctx, b + 4, b, b + 2)
    ensures ProcessScript(ctx, b)[COMMANDS_AT..CLEANUP_AT] == CommandScript(ctx, b + 5, b + 4)
    ensures ProcessScript(ctx, b)[CLEANUP_AT..PROCESS_CALLS] == CleanupScript(b)
    ensures ProcessScript(ctx, b)[..CLEANUP_AT] == SetupScript(ctx, b)
  {
    var P := ProcessScript(ctx, b);
    var B1, B2 := BufferScript(ctx.device, b), BufferScript(ctx.device, b + 2);
    var D, C, K := DescriptorScript(ctx, b + 4, b, b + 2), CommandScript(ctx, b + 5, b + 4), CleanupScript(b);
    assert P == B1 + B2 + D + C + K;
    assert P[0..3] == B1;
    assert P[3..6] == B2;
    assert P[6..9] == D;
    assert P[9..11] == C;
    assert P[11..17] == K;
    assert P[..11] == B1 + B2 + D + C;
  }

  /** `create_buffer`'s calls on `t`, whose next handle is `b`: the buffer `b`
      and its memory `b + 1` come to exist; the memory refers to the device,
      the buffer to the device and, once bound, to the memory. */
  lemma BufferScriptSteps(t: LedgerState, device: Handle, b: Handle)
    requires t.next == b
    ensures Run(t, BufferScript(device, b)).next == b + 2
    ensures Run(t, BufferScript(device, b)).live == t.live + {b} + {b + 1}
    ensures Run(t, BufferScript(device, b)).log == t.log + [Created(b, Buffer)] + [Created(b + 1, DeviceMemory)]
    ensures Run(t, BufferScript(device, b)).Holds(b, Buffer, {device, b + 1})
    ensures Run(t, BufferScript(device, b)).Holds(b + 1, DeviceMemory, {device})
  {
    var a1, a2, a3 := Make(Buffer, {device}), Make(DeviceMemory, {device}), Link(b, {b + 1});
    assert BufferScript(device, b) == [a1, a2, a3];
    RunOfThree(t, a1, a2, a3);
    var u1 := Step(t, a1);
    assert u1.next == b + 1 && u1.Holds(b, Buffer, {device});
    var u2 := Step(u1, a2);
    assert u2.Holds(b, Buffer, {device}) && u2.Holds(b + 1, DeviceMemory, {device});
    var u3 := Step(u2, a3);
    assert u3.Holds(b, Buffer, {device} + {b + 1}) && u3.Holds(b + 1, DeviceMemory, {device});
    assert {device} + {b + 1} == {device, b + 1};
  }

  /** They may run once the device is live. */
  lemma BufferScriptRuns(t: LedgerState, device: Handle, b: Handle)
    requires t.next == b && device in t.live
    ensures Runs(t, BufferScript(device, b))
  {
    assert BufferScript(device, b) == [Make(Buffer, {device}), Make(DeviceMemory, {device}), Link(b, {b + 1})];
    RunsOfThree(t, Make(Buffer, {device}), Make(DeviceMemory, {device}), Link(b, {b + 1}));
  }

  /** Step 3's calls on `t`, whose next handle is `b`: the descriptor pool `b`
      comes to exist and to refer to the device, then to the set layout as
      the set is allocated, then to both buffers as the set is written. */
  lemma DescriptorScriptSteps(t: LedgerState, ctx: VulkanContext, b: Handle, input: Handle, output: Handle)
    requires t.next == b
    ensures Run(t, DescriptorScript(ctx, b, input, output)).next == b + 1
    ensures Run(t, DescriptorScript(ctx, b, input, output)).live == t.live + {b}
    ensures Run(t, DescriptorScript(ctx, b, input, output)).log == t.log + [Created(b, DescriptorPool)]
    ensures Run(t, DescriptorScript(ctx, b, input, output))
      .Holds(b, DescriptorPool, {ctx.device, ctx.descriptorSetLayout, input, output})
  {
    var a1, a2, a3 := Make(DescriptorPool, {ctx.device}), Link(b, {ctx.descriptorSetLayout}), Link(b, {input, output});
    assert DescriptorScript(ctx, b, input, output) == [a1, a2, a3];
    RunOfThree(t, a1, a2, a3);
    var u1 := Step(t, a1);
    assert u1.Holds(b, DescriptorPool, {ctx.device});
    var u2 := Step(u1, a2);
    assert u2.Holds(b, DescriptorPool, {ctx.device} + {ctx.descriptorSetLayout});
    var u3 := Step(u2, a3);
    assert u3.Holds(b, DescriptorPool, {ctx.device} + {ctx.descriptorSetLayout} + {input, output});
    assert {ctx.device} + {ctx.descriptorSetLayout} + {input, output}
        == {ctx.device, ctx.descriptorSetLayout, input, output};
  }

  /** They may run once those objects are live. */
  lemma DescriptorScriptRuns(t: LedgerState, ctx: VulkanContext, b: Handle, input: Handle, output: Handle)
    requires t.next == b
    requires {ctx.device, ctx.descriptorSetLayout, input, output} <= t.live
    requires ctx.descriptorSetLayout < b && input < b && output < b
    ensures Runs(t, DescriptorScript(ctx, b, input, output))
  {
    assert DescriptorScript(ctx, b, input, output) ==
      [Make(DescriptorPool, {ctx.device}), Link(b, {ctx.descriptorSetLayout}), Link(b, {input, output})];
    RunsOfThree(t, Make(DescriptorPool, {ctx.device}), Link(b, {ctx.descriptorSetLayout}), Link(b, {input, output}));
  }

  /** Step 4's calls on `t`, whose next handle is `b`: the command pool `b`
      comes to exist and to refer to the device, then, as its command buffer
      is recorded, to the pipeline, its layout and the descriptor pool. */
  lemma CommandScriptSteps(t: LedgerState, ctx: VulkanContext, b: Handle, pool: Handle)
    requires t.next == b
    ensures Run(t, CommandScript(ctx, b, pool)).next == b + 1
    ensures Run(t, CommandScript(ctx, b, pool)).live == t.live + {b}
    ensures Run(t, CommandScript(ctx, b, pool)).log == t.log + [Created(b, CommandPool)]
    ensures Run(t, CommandScript(ctx, b, pool))
      .Holds(b, CommandPool, {ctx.device, ctx.pipeline, ctx.pipelineLayout, pool})
  {
    var a1, a2 := Make(CommandPool, {ctx.device}), Link(b, {ctx.pipeline, ctx.pipelineLayout, pool});
    assert CommandScript(ctx, b, pool) == [a1, a2];
    RunOfTwo(t, a1, a2);
    var u1 := Step(t, a1);
    assert u1.Holds(b, CommandPool, {ctx.device});
    var u2 := Step(u1, a2);
    assert u2.Holds(b, CommandPool, {ctx.device} + {ctx.pipeline, ctx.pipelineLayout, pool});
    assert {ctx.device} + {ctx.pipeline, ctx.pipelineLayout, pool}
        == {ctx.device, ctx.pipeline, ctx.pipelineLayout, pool};
  }

  /** They may run once those objects are live. */
  lemma CommandScriptRuns(t: LedgerState, ctx: VulkanContext, b: Handle, pool: Handle)
    requires t.next == b
    requires {ctx.device, ctx.pipeline, ctx.pipelineLayout, pool} <= t.live
    requires ctx.pipeline < b && ctx.pipelineLayout < b && pool < b
    ensures Runs(t, CommandScript(ctx, b, pool))
  {
    assert CommandScript(ctx, b, pool) == [Make(CommandPool, {ctx.device}), Link(b, {ctx.pipeline, ctx.pipelineLayout, pool})];
    RunsOfTwo(t, Make(CommandPool, {ctx.device}), Link(b, {ctx.pipeline, ctx.pipelineLayout, pool}));
  }

  /** The context objects the setup refers to are live and older than `b`. */
  predicate ContextReady(u: LedgerState, ctx: VulkanContext, b: Handle) {
    && {ctx.device, ctx.descriptorSetLayout, ctx.pipeline, ctx.pipelineLayout} <= u.live
    && ctx.device < b && ctx.descriptorSetLayout < b && ctx.pipeline < b && ctx.pipelineLayout < b
  }

  /** How many handles the first `n` stages issue. */
  function StagedHandles(n: nat): nat {
    if n == 0 then 0 else if n == 1 then 2 else if n == 2 then 4 else if n == 3 then 5 else 6
  }

  /** The ledger after the first `n` stages of steps 2 to 4, handles issued
      from `b`: the context objects are still live, and the stages have made the
      input buffer and its memory (`n` = 1), the output buffer and its memory
      (2), the descriptor pool (3) and the command pool (4). Each buffer
      refers to the device and to its memory, each memory to the device, the
      descriptor pool to the device, the set layout and both buffers, the
      command pool to the device, the pipeline, its layout and the descriptor
      pool. */
  ghost predicate Staged(u: LedgerState, ctx: VulkanContext, b: Handle, n: nat) {
    && ContextReady(u, ctx, b)
    && (1 <= n ==> u.Holds(b, Buffer, {ctx.device, b + 1}) && u.Holds(b + 1, DeviceMemory, {ctx.device}))
    && (2 <= n ==> u.Holds(b + 2, Buffer, {ctx.device, b + 3}) && u.Holds(b + 3, DeviceMemory, {ctx.device}))
    && (3 <= n ==> u.Holds(b + 4, DescriptorPool, {ctx.device, ctx.descriptorSetLayout, b, b + 2}))
    && (4 <= n ==> u.Holds(b + 5, CommandPool, {ctx.device, ctx.pipeline, ctx.pipelineLayout, b + 4}))
  }

  /** A later state that keeps the live objects live and the staged objects as
      they are is staged as far. */
  lemma StagedKept(t: LedgerState, u: LedgerState, ctx: VulkanContext, b: Handle, n: nat)
    requires Staged(t, ctx, b, n) && t.live <= u.live
    requires forall h: Handle, k: Kind, on: set<Handle> :: h < b + StagedHandles(n) && t.Holds(h, k, on) ==> u.Holds(h, k, on)
    ensures Staged(u, ctx, b, n)
  {
  }

  /** The input buffer's calls run from a ready context and start the stages. */
  lemma InputStage(t: LedgerState, ctx: VulkanContext, b: Handle)
    requires Staged(t, ctx, b, 0) && t.next == b
    ensures Runs(t, BufferScript(ctx.device, b))
    ensures Run(t, BufferScript(ctx.device, b)).next == b + StagedHandles(1)
    ensures Staged(Run(t, BufferScript(ctx.device, b)), ctx, b, 1)
  {
    var B := BufferScript(ctx.device, b);
    var u := Run(t, B);
    assert Runs(t, B) by { BufferScriptRuns(t, ctx.device, b); }
    assert u.next == b + 2 && u.Holds(b, Buffer, {ctx.device, b + 1}) && u.Holds(b + 1, DeviceMemory, {ctx.device})
    by { BufferScriptSteps(t, ctx.device, b); }
    assert Staged(u, ctx, b, 0) by { LiveGrows(t, B); }
  }

  /** The output buffer's calls run after the input buffer's and keep it as it is. */
  lemma OutputStage(t: LedgerState, ctx: VulkanContext, b: Handle)
    requires Staged(t, ctx, b, 1) && t.next == b + StagedHandles(1)
    ensures Runs(t, BufferScript(ctx.device, b + 2))
    ensures Run(t, BufferScript(ctx.device, b + 2)).next == b + StagedHandles(2)
    ensures Staged(Run(t, BufferScript(ctx.device, b + 2)), ctx, b, 2)
  {
    var B := BufferScript(ctx.device, b + 2);
    var u := Run(t, B);
    assert Runs(t, B) by { BufferScriptRuns(t, ctx.device, b + 2); }
    assert u.next == b + 4 && u.Holds(b + 2, Buffer, {ctx.device, b + 3}) && u.Holds(b + 3, DeviceMemory, {ctx.device})
    by { BufferScriptSteps(t, ctx.device, b + 2); }
    assert Staged(u, ctx, b, 1) by {
      LiveGrows(t, B);
      KeepsOlder(t, B, b + 2);
      StagedKept(t, u, ctx, b, 1);
    }
  }

  /** Step 3 runs after both buffers exist; it makes a descriptor pool that
      refers to the device, the set layout and both buffers, and keeps the
      buffers as they are. */
  lemma DescriptorStage(t: LedgerState, ctx: VulkanContext, b: Handle)
    requires Staged(t, ctx, b, 2) && t.next == b + StagedHandles(2)
    ensures Runs(t, DescriptorScript(ctx, b + 4, b, b + 2))
    ensures Run(t, DescriptorScript(ctx, b + 4, b, b + 2)).next == b + StagedHandles(3)
    ensures Staged(Run(t, DescriptorScript(ctx, b + 4, b, b + 2)), ctx, b, 3)
  {
    var D := DescriptorScript(ctx, b + 4, b, b + 2);
    var u := Run(t, D);
    assert Runs(t, D) by { DescriptorScriptRuns(t, ctx, b + 4, b, b + 2); }
    assert u.next == b + 5 && u.Holds(b + 4, DescriptorPool, {ctx.device, ctx.descriptorSetLayout, b, b + 2}) by {
      DescriptorScriptSteps(t, ctx, b + 4, b, b + 2);
    }
    assert Staged(u, ctx, b, 2) by {
      LiveGrows(t, D);
      KeepsOlder(t, D, b + 4);
      StagedKept(t, u, ctx, b, 2);
    }
  }

  /** Step 4 runs after the descriptor pool exists; it makes a command pool
      that refers to the device, the pipeline, its layout and the descriptor
      pool, and keeps the rest. */
  lemma CommandStage(t: LedgerState, ctx: VulkanContext, b: Handle)
    requires Staged(t, ctx, b, 3) && t.next == b + StagedHandles(3)
    ensures Runs(t, CommandScript(ctx, b + 5, b + 4))
    ensures Run(t, CommandScript(ctx, b + 5, b + 4)).next == b + StagedHandles(4)
    ensures Staged(Run(t, CommandScript(ctx, b + 5, b + 4)), ctx, b, 4)
  {
    var C := CommandScript(ctx, b + 5, b + 4);
    var u := Run(t, C);
    assert Runs(t, C) by { CommandScriptRuns(t, ctx, b + 5, b + 4); }
    assert u.next == b + 6 && u.Holds(b + 5, CommandPool, {ctx.device, ctx.pipeline, ctx.pipelineLayout, b + 4}) by {
      CommandScriptSteps(t, ctx, b + 5, b + 4);
    }
    assert Staged(u, ctx, b, 3) by {
      LiveGrows(t, C);
      KeepsOlder(t, C, b + 5);
      StagedKept(t, u, ctx, b, 3);
    }
  }

  /** Steps 2 to 4 run on a ready context and create the six objects, issuing
      the next six handles. */
  lemma SetupResult(s0: LedgerState, ctx: VulkanContext)
    requires ContextReady(s0, ctx, s0.next)
    ensures Runs(s0, SetupScript(ctx, s0.next))
    ensures Run(s0, SetupScript(ctx, s0.next)).next == s0.next + 6
    ensures Staged(Run(s0, SetupScript(ctx, s0.next)), ctx, s0.next, 4)
  {
    var b, dev := s0.next, ctx.device;
    var B1, B2 := BufferScript(dev, b), BufferScript(dev, b + 2);
    var D, C := DescriptorScript(ctx, b + 4, b, b + 2), CommandScript(ctx, b + 5, b + 4);
    assert SetupScript(ctx, b) == B1 + B2 + D + C;
    var u1 := Run(s0, B1);
    var u2 := Run(u1, B2);
    var u3 := Run(u2, D);
    var u4 := Run(u3, C);
    assert Runs(s0, B1) && u1.next == b + StagedHandles(1) && Staged(u1, ctx, b, 1) by { InputStage(s0, ctx, b); }
    assert Runs(u1, B2) && u2.next == b + StagedHandles(2) && Staged(u2, ctx, b, 2) by { OutputStage(u1, ctx, b); }
    assert Runs(u2, D) && u3.next == b + StagedHandles(3) && Staged(u3, ctx, b, 3) by { DescriptorStage(u2, ctx, b); }
    assert Runs(u3, C) && u4.next == b + StagedHandles(4) && Staged(u4, ctx, b, 4) by { CommandStage(u3, ctx, b); }
    assert Runs(s0, B1 + B2) && Run(s0, B1 + B2) == u2 by { RunsThen(s0, B1, B2); }
    assert Runs(s0, B1 + B2 + D) && Run(s0, B1 + B2 + D) == u3 by { RunsThen(s0, B1 + B2, D); }
    assert Runs(s0, B1 + B2 + D + C) && Run(s0, B1 + B2 + D + C) == u4 by { RunsThen(s0, B1 + B2 + D, C); }
  }

  /** Where each object the setup made comes in the cleanup's order. */
  function CleanupOrder(b: Handle): map<Handle, nat> {
    map[b + 5 := 0, b + 4 := 1, b := 2, b + 1 := 3, b + 2 := 4, b + 3 := 5]
  }

  /** The cleanup may run once the six objects are set up, when the context's
      objects are older than them and nothing older refers to any of them. Each
      object is destroyed after everything that refers to it: the command pool
      first, then the descriptor pool, then each buffer before its memory. */
  lemma CleanupRuns(u: LedgerState, ctx: VulkanContext, b: Handle)
    requires Staged(u, ctx, b, 4) && u.next == b + 6
    requires forall d, x :: d in u.live && d in u.deps && d < b && x in u.deps[d] ==> x < b
    requires forall d :: d in u.live ==> d < b + 6
    ensures Runs(u, CleanupScript(b))
  {
    var K := CleanupScript(b);
    var order := CleanupOrder(b);
    assert K == [Free(b + 5, CommandPool), Free(b + 4, DescriptorPool), Free(b, Buffer),
                 Free(b + 1, DeviceMemory), Free(b + 2, Buffer), Free(b + 3, DeviceMemory)];
    forall d, i | d in u.live && d in u.deps && 0 <= i < |K| && K[i].target in u.deps[d]
      ensures d in order && order[d] < i && K[order[d]].target == d
    {
      assert b <= K[i].target;
    }
    TeardownRuns(u, K, order);
  }


  /** The log entries of steps 2 to 4, handles from `b`. */
  function SetupEvents(b: Handle): seq<Event> {
    [Created(b, Buffer), Created(b + 1, DeviceMemory), Created(b + 2, Buffer),
     Created(b + 3, DeviceMemory), Created(b + 4, DescriptorPool), Created(b + 5, CommandPool)]
  }

  /** The log entries of the cleanup, in its order. */
  function CleanupEvents(b: Handle): seq<Event> {
    [Destroyed(b + 5, CommandPool), Destroyed(b + 4, DescriptorPool), Destroyed(b, Buffer),
     Destroyed(b + 1, DeviceMemory), Destroyed(b + 2, Buffer), Destroyed(b + 3, DeviceMemory)]
  }

  /** The log after the four setup stages, one stage at a time. */
  lemma SetupLogChain(g0: seq<Event>, g1: seq<Event>, g2: seq<Event>, g3: seq<Event>, g4: seq<Event>, b: Handle)
    requires g1 == g0 + [Created(b, Buffer)] + [Created(b + 1, DeviceMemory)]
    requires g2 == g1 + [Created(b + 2, Buffer)] + [Created(b + 3, DeviceMemory)]
    requires g3 == g2 + [Created(b + 4, DescriptorPool)] && g4 == g3 + [Created(b + 5, CommandPool)]
    ensures g4 == g0 + SetupEvents(b)
  {
  }

  /** No call of the script destroys anything, and it only links objects
      issued from `b` on. */
  predicate OnlyAdds(ops: seq<Op>, b: Handle) {
    forall k :: 0 <= k < |ops| ==> !ops[k].Free? && (ops[k].Link? ==> b <= ops[k].target)
  }

  lemma OnlyAddsJoin(a: seq<Op>, c: seq<Op>, b: Handle)
    requires OnlyAdds(a, b) && OnlyAdds(c, b)
    ensures OnlyAdds(a + c, b)
  {
    assert forall k :: |a| <= k < |a + c| ==> (a + c)[k] == c[k - |a|];
  }

  /** The setup only creates and links its own new objects. */
  lemma SetupOnlyAdds(ctx: VulkanContext, b: Handle)
    ensures OnlyAdds(SetupScript(ctx, b), b)
  {
    var B1, B2 := BufferScript(ctx.device, b), BufferScript(ctx.device, b + 2);
    var D, C := DescriptorScript(ctx, b + 4, b, b + 2), CommandScript(ctx, b + 5, b + 4);
    assert OnlyAdds(B1, b) && OnlyAdds(B2, b) && OnlyAdds(D, b) && OnlyAdds(C, b);
    OnlyAddsJoin(B1, B2, b);
    OnlyAddsJoin(B1 + B2, D, b);
    OnlyAddsJoin(B1 + B2 + D, C, b);
  }

  /** Steps 2 to 4 add exactly the six new objects to the live ones. */
  lemma SetupLive(s0: LedgerState, ctx: VulkanContext)
    requires ContextReady(s0, ctx, s0.next)
    ensures Run(s0, SetupScript(ctx, s0.next)).live == s0.live + {s0.next, s0.next + 1, s0.next + 2,
                                                                  s0.next + 3, s0.next + 4, s0.next + 5}
  {
    var b, S := s0.next, SetupScript(ctx, s0.next);
    var u := Run(s0, S);
    var n := |MadeKinds(S)|;
    assert u.next == b + 6 by { SetupResult(s0, ctx); }
    assert u.next == b + n && u.live == s0.live + HandleRange(b, n) by {
      SetupOnlyAdds(ctx, b);
      RunWithoutFrees(s0, S);
    }
    SixHandles(b);
  }

  /** The six handles from `b`. */
  lemma SixHandles(b: Handle)
    ensures HandleRange(b, 6) == {b, b + 1, b + 2, b + 3, b + 4, b + 5}
  {
    assert HandleRange(b, 1) == {b};
    assert HandleRange(b, 2) == {b, b + 1};
    assert HandleRange(b, 3) == {b, b + 1, b + 2};
    assert HandleRange(b, 4) == {b, b + 1, b + 2, b + 3};
    assert HandleRange(b, 5) == {b, b + 1, b + 2, b + 3, b + 4};
  }

  /** Steps 2 to 4 log the six creations in order. */
  lemma SetupLog(s0: LedgerState, ctx: VulkanContext)
    ensures Run(s0, SetupScript(ctx, s0.next)).log == s0.log + SetupEvents(s0.next)
  {
    var b, dev := s0.next, ctx.device;
    var B1, B2 := BufferScript(dev, b), BufferScript(dev, b + 2);
    var D, C := DescriptorScript(ctx, b + 4, b, b + 2), CommandScript(ctx, b + 5, b + 4);
    assert SetupScript(ctx, b) == B1 + B2 + D + C;
    var u1 := Run(s0, B1);
    var u2 := Run(u1, B2);
    var u3 := Run(u2, D);
    var u4 := Run(u3, C);
    assert u1.next == b + 2 && u1.log == s0.log + [Created(b, Buffer)] + [Created(b + 1, DeviceMemory)]
    by { BufferScriptSteps(s0, dev, b); }
    assert u2.next == b + 4 && u2.log == u1.log + [Created(b + 2, Buffer)] + [Created(b + 3, DeviceMemory)]
    by { BufferScriptSteps(u1, dev, b + 2); }
    assert u3.next == b + 5 && u3.log == u2.log + [Created(b + 4, DescriptorPool)]
    by { DescriptorScriptSteps(u2, ctx, b + 4, b, b + 2); }
    assert u4.log == u3.log + [Created(b + 5, CommandPool)] by { CommandScriptSteps(u3, ctx, b + 5, b + 4); }
    assert Run(s0, B1 + B2) == u2 by { RunAppend(s0, B1, B2); }
    assert Run(s0, B1 + B2 + D) == u3 by { RunAppend(s0, B1 + B2, D); }
    assert Run(s0, B1 + B2 + D + C) == u4 by { RunAppend(s0, B1 + B2 + D, C); }
    SetupLogChain(s0.log, u1.log, u2.log, u3.log, u4.log, b);
  }

  /** The cleanup retires exactly the six objects of the setup. */
  lemma CleanupFreed(b: Handle)
    ensures Freed(CleanupScript(b)) == {b, b + 1, b + 2, b + 3, b + 4, b + 5}
  {
    var K := CleanupScript(b);
    assert K == [Free(b + 5, CommandPool), Free(b + 4, DescriptorPool), Free(b, Buffer),
                 Free(b + 1, DeviceMemory), Free(b + 2, Buffer), Free(b + 3, DeviceMemory)];
    assert K[0].target == b + 5 && K[1].target == b + 4 && K[2].target == b;
    assert K[3].target == b + 1 && K[4].target == b + 2 && K[5].target == b + 3;
  }

  /** The cleanup logs the six destructions in its order. */
  lemma CleanupLog(b: Handle)
    ensures forall k :: 0 <= k < |CleanupScript(b)| ==> CleanupScript(b)[k].Free?
    ensures Destructions(CleanupScript(b)) == CleanupEvents(b)
  {
    var K := CleanupScript(b);
    assert K == [Free(b + 5, CommandPool), Free(b + 4, DescriptorPool), Free(b, Buffer),
                 Free(b + 1, DeviceMemory), Free(b + 2, Buffer), Free(b + 3, DeviceMemory)];
  }

  /** The context's objects are live and older than the next handle. */
  lemma ContextIsReady(s0: LedgerState, ctx: VulkanContext)
    requires CanDrop(s0, ctx)
    ensures ContextReady(s0, ctx, s0.next)
  {
  }

  /** After the setup every live object was issued before the cleanup, and the
      objects older than the setup still refer only to objects older than it. */
  lemma SetupBounds(s0: LedgerState, u: LedgerState, b: Handle)
    requires s0.Valid() && s0.next == b
    requires u.live == s0.live + {b, b + 1, b + 2, b + 3, b + 4, b + 5}
    requires forall h :: h in s0.deps && h < b ==> h in u.deps && u.deps[h] == s0.deps[h]
    ensures forall d :: d in u.live ==> d < b + 6
    ensures forall d, x :: d in u.live && d in u.deps && d < b && x in u.deps[d] ==> x < b
  {
    forall d, x | d in u.live && d in u.deps && d < b && x in u.deps[d]
      ensures x < b
    {
      assert d in s0.live;
    }
  }

  /** After the setup every live object was issued before the cleanup, and the
      objects older than the setup still refer only to objects older than it. */
  lemma SetupReadiesCleanup(s0: LedgerState, ctx: VulkanContext)
    requires CanDrop(s0, ctx)
    ensures var u, b := Run(s0, SetupScript(ctx, s0.next)), s0.next;
      && (forall d, x :: d in u.live && d in u.deps && d < b && x in u.deps[d] ==> x < b)
      && (forall d :: d in u.live ==> d < b + 6)
  {
    var b := s0.next;
    var S := SetupScript(ctx, b);
    var u := Run(s0, S);
    assert u.live == s0.live + {b, b + 1, b + 2, b + 3, b + 4, b + 5} by {
      ContextIsReady(s0, ctx);
      SetupLive(s0, ctx);
    }
    assert forall h :: h in s0.deps && h < b ==> h in u.deps && u.deps[h] == s0.deps[h] by {
      SetupOnlyAdds(ctx, b);
      RunKeepsOlderDeps(s0, S, b);
    }
    SetupBounds(s0, u, b);
  }

  /** A successful `process_image` is allowed from any state in which the
      context could be dropped: every object it creates is destroyed only after
      everything that refers to it. */
  lemma ProcessScriptRuns(s0: LedgerState, ctx: VulkanContext)
    requires CanDrop(s0, ctx)
    ensures Runs(s0, ProcessScript(ctx, s0.next))
  {
    var b := s0.next;
    var S, K := SetupScript(ctx, b), CleanupScript(b);
    var u := Run(s0, S);
    ContextIsReady(s0, ctx);
    SetupResult(s0, ctx);
    assert Runs(u, K) by { SetupReadiesCleanup(s0, ctx); CleanupRuns(u, ctx, b); }
    RunsThen(s0, S, K);
  }

  /** A successful `process_image` leaves the same objects live as before and
      logs the six creations followed by the six destructions. */
  lemma ProcessTrace(s0: LedgerState, ctx: VulkanContext)
    requires CanDrop(s0, ctx)
    ensures Run(s0, ProcessScript(ctx, s0.next)).live == s0.live
    ensures Run(s0, ProcessScript(ctx, s0.next)).log == s0.log + SetupEvents(s0.next) + CleanupEvents(s0.next)
    ensures Run(s0, ProcessScript(ctx, s0.next)).next == s0.next + 6
  {
    var b := s0.next;
    var S, K := SetupScript(ctx, b), CleanupScript(b);
    var u := Run(s0, S);
    var v := Run(u, K);
    var six := {b, b + 1, b + 2, b + 3, b + 4, b + 5};
    ContextIsReady(s0, ctx);
    assert u.next == b + 6 by { SetupResult(s0, ctx); }
    assert u.live == s0.live + six by { SetupLive(s0, ctx); }
    assert u.log == s0.log + SetupEvents(b) by { SetupLog(s0, ctx); }
    assert v.live == u.live - six && v.log == u.log + CleanupEvents(b) && v.next == u.next by {
      CleanupFreed(b);
      CleanupLog(b);
      RunOfFrees(u, K);
    }
    assert Run(s0, S + K) == v by { RunAppend(s0, S, K); }
    assert s0.live !! six;
  }

  /** Objects issued before `b` that keep their kind and dependencies, in a
      state with the same live objects, still hold as they did. */
  lemma OlderKept(s0: LedgerState, v: LedgerState, b: Handle)
    requires s0.Valid() && s0.next == b && v.live == s0.live
    requires forall h :: h in s0.kind && h < b ==> h in v.kind && v.kind[h] == s0.kind[h]
    requires forall h :: h in s0.deps && h < b ==> h in v.deps && v.deps[h] == s0.deps[h]
    ensures forall h: Handle, k: Kind, on: set<Handle> :: s0.Holds(h, k, on) ==> v.Holds(h, k, on)
    ensures forall d :: d in v.live ==> d in s0.deps && d in v.deps && v.deps[d] == s0.deps[d]
  {
  }

  /** After a successful `process_image` the context can still be dropped. */
  lemma ProcessKeepsDroppable(s0: LedgerState, ctx: VulkanContext)
    requires CanDrop(s0, ctx)
    ensures CanDrop(Run(s0, ProcessScript(ctx, s0.next)), ctx)
  {
    var b := s0.next;
    var S, K := SetupScript(ctx, b), CleanupScript(b);
    var u := Run(s0, S);
    var v := Run(u, K);
    assert Run(s0, S + K) == v by { RunAppend(s0, S, K); }
    assert v.Valid() by { ProcessScriptRuns(s0, ctx); RunKeepsValid(s0, S + K); }
    assert v.live == s0.live by { ProcessTrace(s0, ctx); }
    SetupKeepsOlder(s0, ctx);
    assert v.kind == u.kind && v.deps == u.deps by { CleanupLog(b); RunOfFrees(u, K); }
    OlderKept(s0, v, b);
    DroppableKept(s0, v, ctx);
  }

  /** The setup leaves what every object older than the upscale is, and what
      it depends on, as it was. */
  lemma SetupKeepsOlder(s0: LedgerState, ctx: VulkanContext)
    ensures var u, b := Run(s0, SetupScript(ctx, s0.next)), s0.next;
      && (forall h :: h in s0.kind && h < b ==> h in u.kind && u.kind[h] == s0.kind[h])
      && (forall h :: h in s0.deps && h < b ==> h in u.deps && u.deps[h] == s0.deps[h])
  {
    SetupOnlyAdds(ctx, s0.next);
    RunWithoutFrees(s0, SetupScript(ctx, s0.next));
    RunKeepsOlderDeps(s0, SetupScript(ctx, s0.next), s0.next);
  }

  /** A valid ledger with the same live objects, each still what it was and
      depending on what it did, can still drop the context. */
  lemma DroppableKept(s0: LedgerState, v: LedgerState, ctx: VulkanContext)
    requires CanDrop(s0, ctx) && v.Valid() && v.live == s0.live
    requires forall h: Handle, k: Kind, on: set<Handle> :: s0.Holds(h, k, on) ==> v.Holds(h, k, on)
    requires forall d :: d in v.live ==> d in s0.deps && d in v.deps && v.deps[d] == s0.deps[d]
    ensures CanDrop(v, ctx)
  {
  }


  /** A successful `process_image` leaves the same objects live as before,
      logs the six creations followed by the six destructions, and the context
      can be dropped afterwards. */
  lemma ProcessScriptResult(s0: LedgerState, ctx: VulkanContext)
    requires CanDrop(s0, ctx)
    ensures Runs(s0, ProcessScript(ctx, s0.next))
    ensures Run(s0, ProcessScript(ctx, s0.next)).live == s0.live
    ensures Run(s0, ProcessScript(ctx, s0.next)).log == s0.log + SetupEvents(s0.next) + CleanupEvents(s0.next)
    ensures Run(s0, ProcessScript(ctx, s0.next)).next == s0.next + 6
    ensures CanDrop(Run(s0, ProcessScript(ctx, s0.next)), ctx)
  {
    ProcessScriptRuns(s0, ctx);
    ProcessTrace(s0, ctx);
    ProcessKeepsDroppable(s0, ctx);
  }

  // ---------------------------------------------------------------------------
  // What an early return leaves behind

  /** After the first `n` calls of a `process_image`, for any `n` from 1 up to
      the cleanup, its input buffer (handle `b`) is live and refers to the
      device: nothing before the cleanup destroys anything. */
  lemma InputBufferHeld(s0: LedgerState, ctx: VulkanContext, n: nat)
    requires 1 <= n <= CLEANUP_AT
    ensures var u, b := Run(s0, ProcessScript(ctx, s0.next)[..n]), s0.next;
      b in u.live && b in u.deps && ctx.device in u.deps[b]
  {
    var b := s0.next;
    var P := ProcessScript(ctx, b);
    ProcessStages(ctx, b);
    SetupOnlyAdds(ctx, b);
    var first, rest := P[..1], P[1..n];
    assert P[..n] == first + rest;
    assert P[..1][..0] == [] && P[0] == Make(Buffer, {ctx.device});
    RunNext(s0, P, 0);
    var u1 := Run(s0, first);
    assert b in u1.live && u1.deps[b] == {ctx.device};
    forall k | 0 <= k < |rest|
      ensures !rest[k].Free?
    {
      assert rest[k] == SetupScript(ctx, b)[k + 1];
    }
    LiveGrows(u1, rest);
    RunGrowsDeps(u1, rest);
    RunAppend(s0, first, rest);
  }

  /** The kinds of the objects a `process_image` creates, in creation order:
      input buffer and memory, output buffer and memory, descriptor pool,
      command pool. */
  const SETUP_KINDS: seq<Kind> := [Buffer, DeviceMemory, Buffer, DeviceMemory, DescriptorPool, CommandPool]

  /** How many of them exist once the first `n` calls have run, for `n` from 0
      up to the cleanup. */
  const CREATED_AFTER: seq<nat> := [0, 1, 2, 2, 3, 4, 4, 5, 5, 5, 6, 6]

  /** The first `n` calls of a `process_image`, `n` up to the cleanup, create
      the first `CREATED_AFTER[n]` of its objects. */
  lemma {:induction false} SetupPrefixKinds(ctx: VulkanContext, b: Handle, n: nat)
    requires n <= CLEANUP_AT
    ensures MadeKinds(ProcessScript(ctx, b)[..n]) == SETUP_KINDS[..CREATED_AFTER[n]]
  {
    var P := ProcessScript(ctx, b);
    ProcessStages(ctx, b);
    if n > 0 {
      SetupPrefixKinds(ctx, b, n - 1);
      assert P[..n][..n - 1] == P[..n - 1];
      var k := n - 1;
      if k < OUTPUT_AT {
        assert P[k] == BufferScript(ctx.device, b)[k - INPUT_AT];
      } else if k < DESCRIPTORS_AT {
        assert P[k] == BufferScript(ctx.device, b + 2)[k - OUTPUT_AT];
      } else if k < COMMANDS_AT {
        assert P[k] == DescriptorScript(ctx, b + 4, b, b + 2)[k - DESCRIPTORS_AT];
      } else {
        assert P[k] == CommandScript(ctx, b + 5, b + 4)[k - COMMANDS_AT];
      }
    }
  }

  /** What a `process_image` that returned after its first `n` calls on `s0`
      leaves in `u`: the handles it issued follow on from `s0`'s, and they and
      the old live objects are exactly what is live; the log ends with their
      creations. */
  ghost predicate LeftBehind(s0: LedgerState, u: LedgerState, n: nat) {
    && n <= CLEANUP_AT
    && CREATED_AFTER[n] <= |SETUP_KINDS|
    && u.next == s0.next + CREATED_AFTER[n]
    && u.live == s0.live + HandleRange(s0.next, CREATED_AFTER[n])
    && u.log == s0.log + Creations(s0.next, SETUP_KINDS[..CREATED_AFTER[n]])
  }

  /** A `process_image` that returns after its first `n` calls, `n` up to the
      cleanup, leaves every object it created live. */
  lemma EarlyReturnKeepsCreated(s0: LedgerState, ctx: VulkanContext, n: nat)
    requires n <= CLEANUP_AT
    ensures LeftBehind(s0, Run(s0, ProcessScript(ctx, s0.next)[..n]), n)
  {
    SetupPrefixAdds(s0, ctx, n);
    SetupPrefixKinds(ctx, s0.next, n);
  }

  /** Nothing before the cleanup destroys anything, so the first `n` calls
      only add the objects they create. */
  lemma SetupPrefixAdds(s0: LedgerState, ctx: VulkanContext, n: nat)
    requires n <= CLEANUP_AT
    ensures var u, made := Run(s0, ProcessScript(ctx, s0.next)[..n]), MadeKinds(ProcessScript(ctx, s0.next)[..n]);
      && u.next == s0.next + |made|
      && u.live == s0.live + HandleRange(s0.next, |made|)
      && u.log == s0.log + Creations(s0.next, made)
  {
    var b := s0.next;
    var P := ProcessScript(ctx, b);
    ProcessStages(ctx, b);
    SetupOnlyAdds(ctx, b);
    forall k | 0 <= k < |P[..n]|
      ensures !P[..n][k].Free?
    {
      assert P[..n][k] == SetupScript(ctx, b)[k];
    }
    RunWithoutFrees(s0, P[..n]);
  }

  /** `Drop` cannot run while a live object outside the context still depends
      on the device: the device's destruction is refused. */
  lemma DropBlockedBy(u: LedgerState, ctx: VulkanContext, b: Handle)
    requires ctx.device != NULL_HANDLE && b !in ctx.Handles()
    requires b in u.live && b in u.deps && ctx.device in u.deps[b]
    ensures !Runs(u, DropScript(ctx))
  {
    var D := DropScript(ctx);
    assert D[4] == Free(ctx.device, Device);
    var init := D[..4];
    assert init == [Free(ctx.pipeline, Pipeline), Free(ctx.pipelineLayout, PipelineLayout),
                    Free(ctx.descriptorSetLayout, DescriptorSetLayout), Free(ctx.shaderModule, ShaderModule)];
    assert b !in Freed(init) by {
      assert Freed(init) <= ctx.Handles() by {
        forall t | t in Freed(init) ensures t in ctx.Handles() {
          var j :| 0 <= j < |init| && init[j].Free? && init[j].target == t;
        }
      }
    }
    FreeBlocked(u, init, ctx.device, Device, b);
  }

  /** A `process_image` that returns early after creating anything leaks what
      it created: the input buffer still depends on the device, so `Drop`
      cannot destroy the device and the context can no longer be dropped. */
  lemma EarlyReturnBlocksDrop(s0: LedgerState, ctx: VulkanContext, n: nat)
    requires CanDrop(s0, ctx) && 1 <= n <= CLEANUP_AT
    ensures !Runs(Run(s0, ProcessScript(ctx, s0.next)[..n]), DropScript(ctx))
  {
    InputBufferHeld(s0, ctx, n);
    assert ctx.device in s0.kind;
    assert s0.next !in ctx.Handles();
    DropBlockedBy(Run(s0, ProcessScript(ctx, s0.next)[..n]), ctx, s0.next);
  }
}
