/** `VulkanContext`: building it (`VulkanContext::new`) and tearing it down
    (`Drop`), replayed against the handle ledger. The driver is an oracle: which
    calls fail and with what text, which devices it enumerates, and what it
    reports about buffers and the kernel's output. */
module Context {
  import opened Outcomes
  import opened VkTypes
  import opened Handles
  import opened Selection
  import opened Bindings

  /** Which of a `process_image` call's two buffers a `create_buffer` call makes. */
  datatype Role = InputBuffer | OutputBuffer

  /** Every fallible driver call site of the core. */
  datatype Call =
    | LoadEntry | CreateInstance | EnumeratePhysicalDevices | CreateDevice
    | CreateShaderModule | CreateDescriptorSetLayout | CreatePipelineLayout | CreateComputePipelines
    | CreateBufferObject(role: Role) | AllocateMemory(role: Role) | BindBufferMemory(role: Role) | MapMemory(role: Role)
    | CreateDescriptorPool | AllocateDescriptorSets | CreateCommandPool | AllocateCommandBuffers
    | BeginCommandBuffer | EndCommandBuffer | QueueSubmit | QueueWaitIdle | MapOutputMemory

  /** What the driver says about one buffer: how many bytes its memory requirement
      adds beyond the buffer's size (alignment), the requirement's
      `memoryTypeBits`, and the requirement's alignment. */
  datatype BufferReport = BufferReport(slack: nat, alignment: nat, memoryTypeBits: bv32)

  datatype Driver = Driver(
    failures: map<Call, string>,    // calls that return an error, with the error's text
    devices: seq<PhysicalDevice>,   // enumerate_physical_devices, in enumeration order
    queue: nat,                     // the queue get_device_queue hands back
    descriptorSet: nat,             // the set allocate_descriptor_sets hands back
    commandBuffer: nat,             // the command buffer allocate_command_buffers hands back
    inputReport: BufferReport,
    outputReport: BufferReport,
    kernelOutput: seq<byte>)        // what the kernel writes from offset 0 of the output memory
  {
    predicate Fails(c: Call) {
      c in failures
    }

    /** The error text of a failing call (empty for one that succeeds). */
    function ErrorOf(c: Call): string {
      if c in failures then failures[c] else ""
    }

    function Report(role: Role): BufferReport {
      match role
      case InputBuffer => inputReport
      case OutputBuffer => outputReport
    }

    /** What vkEnumeratePhysicalDevices answers. */
    function Enumeration(): Result<seq<PhysicalDevice>, string> {
      if Fails(EnumeratePhysicalDevices) then Err(ErrorOf(EnumeratePhysicalDevices)) else Ok(devices)
    }
  }

  datatype VulkanContext = VulkanContext(
    instance: Handle,
    physicalDevice: PhysicalDevice,
    device: Handle,
    queueFamilyIndex: nat,
    queue: nat,
    shaderModule: Handle,
    descriptorSetLayout: Handle,
    pipelineLayout: Handle,
    pipeline: Handle,
    setLayoutBindings: seq<LayoutBinding>,
    pushConstantRanges: seq<PushConstantRange>)
  {
    function Handles(): set<Handle> {
      {instance, device, shaderModule, descriptorSetLayout, pipelineLayout, pipeline}
    }
  }

  /** The order `new` creates the context's objects in. */
  const CONTEXT_KINDS: seq<Kind> :=
    [Instance, Device, ShaderModule, DescriptorSetLayout, PipelineLayout, Pipeline]

  /** The handle the driver issues first on a fresh ledger. */
  const FIRST_HANDLE: Handle := 1

  /** What each context object refers to on a fresh ledger, whose handles are
      issued from `FIRST_HANDLE` = 1: the instance (1) nothing; the device (2)
      the instance; the shader module (3) and the descriptor-set layout (4) the
      device; the pipeline layout (5) the device and the set layout; the
      pipeline (6) the device, the pipeline layout and the shader module. */
  const CONTEXT_DEPS: seq<set<Handle>> := [{}, {1}, {2}, {2}, {2, 4}, {2, 5, 3}]

  /** `new`'s calls on a fresh ledger. */
  const CONTEXT_SCRIPT: seq<Op> :=
    [Make(Instance, {}), Make(Device, {1}), Make(ShaderModule, {2}),
     Make(DescriptorSetLayout, {2}), Make(PipelineLayout, {2, 4}), Make(Pipeline, {2, 5, 3})]

  /** Call `i` of `new` makes the `i`-th kind with the `i`-th dependencies. */
  lemma ContextScriptOps()
    ensures |CONTEXT_SCRIPT| == |CONTEXT_KINDS| == |CONTEXT_DEPS| == 6
    ensures forall i :: 0 <= i < 6 ==> CONTEXT_SCRIPT[i] == Make(CONTEXT_KINDS[i], CONTEXT_DEPS[i])
  {
  }

  function CreationEvents(ctx: VulkanContext): seq<Event> {
    [ Created(ctx.instance, Instance), Created(ctx.device, Device),
      Created(ctx.shaderModule, ShaderModule), Created(ctx.descriptorSetLayout, DescriptorSetLayout),
      Created(ctx.pipelineLayout, PipelineLayout), Created(ctx.pipeline, Pipeline) ]
  }

  /** The order `Drop` destroys them in. */
  function TeardownEvents(ctx: VulkanContext): seq<Event> {
    [ Destroyed(ctx.pipeline, Pipeline), Destroyed(ctx.pipelineLayout, PipelineLayout),
      Destroyed(ctx.descriptorSetLayout, DescriptorSetLayout), Destroyed(ctx.shaderModule, ShaderModule),
      Destroyed(ctx.device, Device), Destroyed(ctx.instance, Instance) ]
  }

  /** The context's objects are live, with the kinds and the dependencies their
      creation calls give them (vulkan.rs:20-27): the device on the instance,
      everything else on the device, the pipeline layout on the set layout, the
      pipeline on the pipeline layout and the shader module. It also carries the layouts it declared. */
  ghost predicate ContextLive(s: LedgerState, ctx: VulkanContext) {
    && s.Holds(ctx.instance, Instance, {})
    && s.Holds(ctx.device, Device, {ctx.instance})
    && s.Holds(ctx.shaderModule, ShaderModule, {ctx.device})
    && s.Holds(ctx.descriptorSetLayout, DescriptorSetLayout, {ctx.device})
    && s.Holds(ctx.pipelineLayout, PipelineLayout, {ctx.device, ctx.descriptorSetLayout})
    && s.Holds(ctx.pipeline, Pipeline, {ctx.device, ctx.pipelineLayout, ctx.shaderModule})
    && ctx.setLayoutBindings == SET_LAYOUT_BINDINGS
    && ctx.pushConstantRanges == PUSH_CONSTANT_RANGES
  }

  /** No live object outside the context depends on one of the context's objects. */
  ghost predicate Unshared(s: LedgerState, ctx: VulkanContext) {
    forall d :: d in s.live && d in s.deps && d !in ctx.Handles() ==> s.deps[d] !! ctx.Handles()
  }

  /** The context holds the handles `new` issues on a fresh ledger. */
  predicate IssuedFromFirst(ctx: VulkanContext) {
    && ctx.instance == FIRST_HANDLE && ctx.device == FIRST_HANDLE + 1
    && ctx.shaderModule == FIRST_HANDLE + 2 && ctx.descriptorSetLayout == FIRST_HANDLE + 3
    && ctx.pipelineLayout == FIRST_HANDLE + 4 && ctx.pipeline == FIRST_HANDLE + 5
  }

  /** After the first `n` calls of `new` the ledger is valid and holds exactly
      the first `n` context objects, logged in creation order. */
  lemma {:induction false} ContextPrefix(n: nat)
    requires n <= |CONTEXT_SCRIPT|
    ensures Run(EMPTY_LEDGER, CONTEXT_SCRIPT[..n]).next == FIRST_HANDLE + n
    ensures Run(EMPTY_LEDGER, CONTEXT_SCRIPT[..n]).live == HandleRange(FIRST_HANDLE, n)
    ensures Run(EMPTY_LEDGER, CONTEXT_SCRIPT[..n]).log == Creations(FIRST_HANDLE, CONTEXT_KINDS[..n])
  {
    var ops := CONTEXT_SCRIPT[..n];
    ContextScriptOps();
    RunWithoutFrees(EMPTY_LEDGER, ops);
    assert MadeKinds(ops) == CONTEXT_KINDS[..n];
  }

  /** Every call of `new` is allowed where it happens. */
  lemma ContextScriptRuns()
    ensures Runs(EMPTY_LEDGER, CONTEXT_SCRIPT)
  {
    forall k | 0 <= k < |CONTEXT_SCRIPT|
      ensures Enabled(Run(EMPTY_LEDGER, CONTEXT_SCRIPT[..k]), CONTEXT_SCRIPT[k])
    {
      ContextPrefix(k);
      HandleRangeMembers(FIRST_HANDLE, k);
    }
  }

  /** The ledger a complete `new` leaves on a fresh one, written out. */
  const BUILT_LEDGER: LedgerState := LedgerState(
    {1, 2, 3, 4, 5, 6},
    map[1 := Instance, 2 := Device, 3 := ShaderModule, 4 := DescriptorSetLayout,
        5 := PipelineLayout, 6 := Pipeline],
    map[1 := {}, 2 := {1}, 3 := {2}, 4 := {2}, 5 := {2, 4}, 6 := {2, 5, 3}],
    7,
    [Created(1, Instance), Created(2, Device), Created(3, ShaderModule),
     Created(4, DescriptorSetLayout), Created(5, PipelineLayout), Created(6, Pipeline)])

  /** Replaying `new` on a fresh ledger, call by call, ends in `BUILT_LEDGER`. */
  lemma ContextScriptResult()
    ensures Run(EMPTY_LEDGER, CONTEXT_SCRIPT) == BUILT_LEDGER
  {
    ContextThree();
    RunNext(EMPTY_LEDGER, CONTEXT_SCRIPT, 3);
    RunNext(EMPTY_LEDGER, CONTEXT_SCRIPT, 4);
    RunNext(EMPTY_LEDGER, CONTEXT_SCRIPT, 5);
    assert CONTEXT_SCRIPT[..6] == CONTEXT_SCRIPT;
  }

  /** The ledger after the instance, the device and the shader module. */
  lemma ContextThree()
    ensures Run(EMPTY_LEDGER, CONTEXT_SCRIPT[..3]) == LedgerState({1, 2, 3},
      map[1 := Instance, 2 := Device, 3 := ShaderModule], map[1 := {}, 2 := {1}, 3 := {2}], 4,
      [Created(1, Instance), Created(2, Device), Created(3, ShaderModule)])
  {
    assert CONTEXT_SCRIPT[..0] == [];
    RunNext(EMPTY_LEDGER, CONTEXT_SCRIPT, 0);
    RunNext(EMPTY_LEDGER, CONTEXT_SCRIPT, 1);
    RunNext(EMPTY_LEDGER, CONTEXT_SCRIPT, 2);
  }



  /** The whole of `new` leaves a valid ledger holding exactly the context's six
      objects with the dependencies their creation calls give them, nothing else depending on them,
      and their creations in the log. */
  lemma ContextScriptBuilds(ctx: VulkanContext)
    requires IssuedFromFirst(ctx)
    requires ctx.setLayoutBindings == SET_LAYOUT_BINDINGS && ctx.pushConstantRanges == PUSH_CONSTANT_RANGES
    ensures BUILT_LEDGER.Valid()
    ensures ContextLive(BUILT_LEDGER, ctx)
    ensures Unshared(BUILT_LEDGER, ctx)
    ensures BUILT_LEDGER.live == ctx.Handles()
    ensures BUILT_LEDGER.log == CreationEvents(ctx)
  {
  }

  /** Why and where `new` stops: the number of context objects created before the
      failing step, and the error it returns. */
  datatype Failure = Failure(created: nat, message: string)

  /** The first failing step of `new` up to and including `create_device`, in the
      order of its `?` operators. */
  function DeviceFailure(drv: Driver): (f: Option<Failure>)
    ensures f.Some? ==> f.value.created <= 1
  {
    var pick := drv.Enumeration();
    if drv.Fails(LoadEntry) then Some(Failure(0, drv.ErrorOf(LoadEntry)))
    else if drv.Fails(CreateInstance) then Some(Failure(0, drv.ErrorOf(CreateInstance)))
    else if pick.Err? then Some(Failure(1, ENUMERATION_FAILED_PREFIX + pick.error))
    else if forall k :: 0 <= k < |pick.value| ==> NoComputeFamily(pick.value[k]) then
      Some(Failure(1, NO_SUITABLE_DEVICE))
    else if drv.Fails(CreateDevice) then Some(Failure(1, drv.ErrorOf(CreateDevice)))
    else None
  }

  /** The calls `new` makes after the device exists, in order. */
  const PIPELINE_CALLS: seq<Call> :=
    [CreateShaderModule, CreateDescriptorSetLayout, CreatePipelineLayout, CreateComputePipelines]

  /** The position in `PIPELINE_CALLS` of the first call that fails, if any. */
  function PipelineStop(failing: set<Call>): (i: Option<nat>)
    ensures i.Some? ==>
      && i.value < |PIPELINE_CALLS| && PIPELINE_CALLS[i.value] in failing
      && forall j :: 0 <= j < i.value ==> PIPELINE_CALLS[j] !in failing
    ensures i.None? ==> forall j :: 0 <= j < |PIPELINE_CALLS| ==> PIPELINE_CALLS[j] !in failing
  {
    if CreateShaderModule in failing then Some(0)
    else if CreateDescriptorSetLayout in failing then Some(1)
    else if CreatePipelineLayout in failing then Some(2)
    else if CreateComputePipelines in failing then Some(3)
    else None
  }

  /** The first failing step of `new` after the device exists. */
  function PipelineFailure(drv: Driver): (f: Option<Failure>)
    ensures f.Some? ==> 2 <= f.value.created < |CONTEXT_KINDS|
  {
    match PipelineStop(drv.failures.Keys)
    case Some(i) => Some(Failure(2 + i, drv.ErrorOf(PIPELINE_CALLS[i])))
    case None => None
  }

  /** The first failing step of `new`, in the order of its `?` operators: the
      objects created before it, and the error `new` returns. */
  function InitFailure(drv: Driver): (f: Option<Failure>)
    ensures f.Some? ==> f.value.created < |CONTEXT_KINDS|
  {
    if DeviceFailure(drv).Some? then DeviceFailure(drv) else PipelineFailure(drv)
  }

  /** What the first half of `new` hands to the second: the instance, the chosen
      physical device and queue family, and the logical device. */
  datatype Opened = Opened(instance: Handle, choice: DeviceChoice, device: Handle)

  /** The ledger has made the first `n` calls of `new`. */
  ghost predicate Built(ledger: Ledger, n: nat)
    requires n <= |CONTEXT_SCRIPT|
    reads ledger
  {
    ledger.state == Run(EMPTY_LEDGER, CONTEXT_SCRIPT[..n])
  }

  /** Make call `n` of `new`: create a `k` that refers to `on`. */
  method CreateNext(ledger: Ledger, k: Kind, on: set<Handle>, n: nat) returns (h: Handle)
    requires n < |CONTEXT_SCRIPT| && CONTEXT_SCRIPT[n] == Make(k, on) && Built(ledger, n)
    modifies ledger
    ensures Built(ledger, n + 1)
    ensures h == FIRST_HANDLE + n
  {
    ContextScriptRuns();
    ContextPrefix(n);
    h := ledger.Create(k, on);
    RunNext(EMPTY_LEDGER, CONTEXT_SCRIPT, n);
  }

  /** The first half of `VulkanContext::new`: load the entry points, create the
      instance, pick the physical device, create the logical device. The ledger
      is the driver's record of the objects of the instance `new` creates, so it
      starts out empty. */
  method OpenDevice(drv: Driver) returns (ledger: Ledger, r: Result<Opened, string>)
    ensures fresh(ledger)
    ensures r.Err? <==> DeviceFailure(drv).Some?
    ensures r.Ok? ==>
      && Built(ledger, 2)
      && r.value.instance == FIRST_HANDLE && r.value.device == FIRST_HANDLE + 1
      && (exists k :: 0 <= k < |drv.devices| && drv.devices[k] == r.value.choice.device
            && forall j :: 0 <= j < k ==> NoComputeFamily(drv.devices[j]))
      && IsFirstComputeFamily(r.value.choice.device.queueFamilies, r.value.choice.queueFamilyIndex)
    ensures r.Err? ==>
      && r.error == DeviceFailure(drv).value.message
      && Built(ledger, DeviceFailure(drv).value.created)
  {
    ledger := new Ledger();
    assert Built(ledger, 0);
    if drv.Fails(LoadEntry) {
      return ledger, Err(drv.ErrorOf(LoadEntry));
    }
    if drv.Fails(CreateInstance) {
      return ledger, Err(drv.ErrorOf(CreateInstance));
    }
    var instance := CreateNext(ledger, Instance, {}, 0);
    var picked := PickPhysicalDevice(drv.Enumeration());
    if picked.Err? {
      return ledger, Err(picked.error);
    }
    if drv.Fails(CreateDevice) {
      return ledger, Err(drv.ErrorOf(CreateDevice));
    }
    var device := CreateNext(ledger, Device, {instance}, 1);
    r := Ok(Opened(instance, picked.value, device));
  }

  /** The pipeline objects the second half of `new` creates. */
  datatype PipelineObjects = PipelineObjects(
    shaderModule: Handle, descriptorSetLayout: Handle, pipelineLayout: Handle, pipeline: Handle)

  /** The second half of `VulkanContext::new`: the shader module, the
      descriptor-set layout, the pipeline layout and the compute pipeline, created
      on the device the first half opened. It stops at the first call in
      `failing` and reports how many context objects exist by then. */
  method BuildPipeline(ledger: Ledger, device: Handle, failing: set<Call>)
    returns (r: Result<PipelineObjects, nat>)
    requires Built(ledger, 2) && device == FIRST_HANDLE + 1
    modifies ledger
    ensures r.Err? <==> PipelineStop(failing).Some?
    ensures r.Err? ==> r.error == 2 + PipelineStop(failing).value && Built(ledger, r.error)
    ensures r.Ok? ==>
      && Built(ledger, |CONTEXT_SCRIPT|)
      && r.value == PipelineObjects(FIRST_HANDLE + 2, FIRST_HANDLE + 3, FIRST_HANDLE + 4, FIRST_HANDLE + 5)
  {
    // Each `?` of the source leaves `r` at the error it returns; the nesting
    // joins every exit at the end of the method.
    var step := 2;
    r := Err(step);
    if CreateShaderModule !in failing {
      var shaderModule := CreateNext(ledger, ShaderModule, {device}, step);
      step := step + 1;
      r := Err(step);
      if CreateDescriptorSetLayout !in failing {
        var descriptorSetLayout := CreateNext(ledger, DescriptorSetLayout, {device}, step);
        step := step + 1;
        r := Err(step);
        if CreatePipelineLayout !in failing {
          var pipelineLayout := CreateNext(ledger, PipelineLayout, {device, descriptorSetLayout}, step);
          step := step + 1;
          r := Err(step);
          if CreateComputePipelines !in failing {
            var pipeline := CreateNext(ledger, Pipeline, {device, pipelineLayout, shaderModule}, step);
            r := Ok(PipelineObjects(shaderModule, descriptorSetLayout, pipelineLayout, pipeline));
          }
        }
      }
    }
  }

  /** `VulkanContext::new`, over the driver's record of the objects of the
      instance it creates. On success the ledger has run all of
      `CONTEXT_SCRIPT`: the six context objects are exactly the live objects,
      with the dependencies their creation calls give them; the device and queue family are the first
      compute-capable ones. On failure it has run the calls before the failing
      one: the objects they created stay live, since nothing destroys them. */
  method New(drv: Driver) returns (ledger: Ledger, r: Result<VulkanContext, string>)
    ensures fresh(ledger) && ledger.state.Valid()
    ensures r.Err? <==> InitFailure(drv).Some?
    ensures r.Ok? ==>
      && ledger.state == Run(EMPTY_LEDGER, CONTEXT_SCRIPT)
      && IssuedFromFirst(r.value)
      && ContextLive(ledger.state, r.value)
      && Unshared(ledger.state, r.value)
      && ledger.state.live == r.value.Handles()
      && ledger.state.log == CreationEvents(r.value)
      && (exists k :: 0 <= k < |drv.devices| && drv.devices[k] == r.value.physicalDevice
            && forall j :: 0 <= j < k ==> NoComputeFamily(drv.devices[j]))
      && IsFirstComputeFamily(r.value.physicalDevice.queueFamilies, r.value.queueFamilyIndex)
      && r.value.queue == drv.queue
    ensures r.Err? ==>
      var n := InitFailure(drv).value.created;
      && ledger.state == Run(EMPTY_LEDGER, CONTEXT_SCRIPT[..n])
      && r.error == InitFailure(drv).value.message
      && ledger.state.live == HandleRange(FIRST_HANDLE, n)
      && ledger.state.log == Creations(FIRST_HANDLE, CONTEXT_KINDS[..n])
  {
    var started;
    ledger, started := OpenDevice(drv);
    if started.Err? {
      NewLeavesPrefix(DeviceFailure(drv).value.created);
      return ledger, Err(started.error);
    }
    var dev := started.value;
    var built := BuildPipeline(ledger, dev.device, drv.failures.Keys);
    if built.Err? {
      NewLeavesPrefix(built.error);
      return ledger, Err(drv.ErrorOf(PIPELINE_CALLS[built.error - 2]));
    }
    var p := built.value;
    var ctx := VulkanContext(dev.instance, dev.choice.device, dev.device, dev.choice.queueFamilyIndex,
                             drv.queue, p.shaderModule, p.descriptorSetLayout, p.pipelineLayout, p.pipeline,
                             SET_LAYOUT_BINDINGS, PUSH_CONSTANT_RANGES);
    assert CONTEXT_SCRIPT[..6] == CONTEXT_SCRIPT;
    ContextScriptResult();
    ContextScriptBuilds(ctx);
    r := Ok(ctx);
  }

  /** A `new` that stops after `n` calls leaves a valid ledger with the first
      `n` objects live and logged. */
  lemma NewLeavesPrefix(n: nat)
    requires n <= |CONTEXT_SCRIPT|
    ensures Run(EMPTY_LEDGER, CONTEXT_SCRIPT[..n]).Valid()
    ensures Run(EMPTY_LEDGER, CONTEXT_SCRIPT[..n]).live == HandleRange(FIRST_HANDLE, n)
    ensures Run(EMPTY_LEDGER, CONTEXT_SCRIPT[..n]).log == Creations(FIRST_HANDLE, CONTEXT_KINDS[..n])
  {
    ContextScriptRuns();
    RunsPrefix(EMPTY_LEDGER, CONTEXT_SCRIPT, n);
    RunKeepsValid(EMPTY_LEDGER, CONTEXT_SCRIPT[..n]);
    ContextPrefix(n);
  }

  /** Teardown may run: the context is live and nothing else still needs it. */
  ghost predicate CanDrop(s: LedgerState, ctx: VulkanContext) {
    s.Valid() && ContextLive(s, ctx) && Unshared(s, ctx)
  }

  /** `Drop`'s calls: pipeline, pipeline layout, descriptor-set layout, shader
      module, device (only when its handle is not null), instance. The null
      case is kept because the source tests for it, but no context the model
      builds reaches it: `New` always issues handle 2 for the device, and a
      live object never has the null handle. */
  function DropScript(ctx: VulkanContext): seq<Op> {
    [Free(ctx.pipeline, Pipeline), Free(ctx.pipelineLayout, PipelineLayout),
     Free(ctx.descriptorSetLayout, DescriptorSetLayout), Free(ctx.shaderModule, ShaderModule)]
    + (if ctx.device != NULL_HANDLE then [Free(ctx.device, Device)] else [])
    + [Free(ctx.instance, Instance)]
  }

  /** The six context objects are distinct: they have different kinds. */
  lemma ContextHandlesDistinct(s: LedgerState, ctx: VulkanContext)
    requires ContextLive(s, ctx)
    ensures |ctx.Handles()| == 6
    ensures ctx.instance !in {ctx.device, ctx.shaderModule, ctx.descriptorSetLayout, ctx.pipelineLayout, ctx.pipeline}
    ensures ctx.device !in {ctx.shaderModule, ctx.descriptorSetLayout, ctx.pipelineLayout, ctx.pipeline}
    ensures ctx.shaderModule !in {ctx.descriptorSetLayout, ctx.pipelineLayout, ctx.pipeline}
    ensures ctx.descriptorSetLayout !in {ctx.pipelineLayout, ctx.pipeline}
    ensures ctx.pipelineLayout != ctx.pipeline
  {
  }

  /** Where each context object comes in `Drop`'s order. */
  function DropOrder(ctx: VulkanContext): map<Handle, nat> {
    map[ctx.pipeline := 0, ctx.pipelineLayout := 1, ctx.descriptorSetLayout := 2,
        ctx.shaderModule := 3, ctx.device := 4, ctx.instance := 5]
  }

  /** The six calls of `Drop` when the device handle is not null. */
  lemma DropCalls(ctx: VulkanContext)
    requires ctx.device != NULL_HANDLE
    ensures DropScript(ctx) == [Free(ctx.pipeline, Pipeline), Free(ctx.pipelineLayout, PipelineLayout),
                                Free(ctx.descriptorSetLayout, DescriptorSetLayout), Free(ctx.shaderModule, ShaderModule),
                                Free(ctx.device, Device), Free(ctx.instance, Instance)]
  {
  }

  /** When teardown may run, `Drop` destroys the six context objects, and every
      live object depending on one of them is a context object `Drop` destroys
      earlier. */
  lemma DropIsTeardownOrder(s: LedgerState, ctx: VulkanContext)
    requires CanDrop(s, ctx)
    ensures |DropScript(ctx)| == 6
    ensures forall k :: 0 <= k < 6 ==> DropScript(ctx)[k].Free?
    ensures forall k :: 0 <= k < 6 ==>
      var t := DropScript(ctx)[k].target;
      t in s.live && t in s.kind && s.kind[t] == DropScript(ctx)[k].kind
    ensures forall i, j :: 0 <= i < j < 6 ==> DropScript(ctx)[i].target != DropScript(ctx)[j].target
    ensures forall d, i :: d in s.live && d in s.deps && 0 <= i < 6 && DropScript(ctx)[i].target in s.deps[d] ==>
      d in DropOrder(ctx) && DropOrder(ctx)[d] < i && DropScript(ctx)[DropOrder(ctx)[d]].target == d
    ensures Freed(DropScript(ctx)) == ctx.Handles()
  {
    ContextHandlesDistinct(s, ctx);
    DropCalls(ctx);
    var ops := DropScript(ctx);
    assert ops[0].target == ctx.pipeline && ops[1].target == ctx.pipelineLayout;
    assert ops[2].target == ctx.descriptorSetLayout && ops[3].target == ctx.shaderModule;
    assert ops[4].target == ctx.device && ops[5].target == ctx.instance;
    DropAfterDependents(s, ctx);
  }

  /** Every live object that depends on a target of `Drop` is itself destroyed
      earlier by `Drop`. */
  lemma DropAfterDependents(s: LedgerState, ctx: VulkanContext)
    requires CanDrop(s, ctx)
    ensures forall d, i :: d in s.live && d in s.deps && 0 <= i < 6 && DropScript(ctx)[i].target in s.deps[d] ==>
      d in DropOrder(ctx) && DropOrder(ctx)[d] < i && DropScript(ctx)[DropOrder(ctx)[d]].target == d
  {
    ContextHandlesDistinct(s, ctx);
    DropCalls(ctx);
    var ops := DropScript(ctx);
    forall d, i | d in s.live && d in s.deps && 0 <= i < 6 && ops[i].target in s.deps[d]
      ensures d in DropOrder(ctx) && DropOrder(ctx)[d] < i && ops[DropOrder(ctx)[d]].target == d
    {
      assert d in ctx.Handles();
    }
  }


  /** When teardown may run, every call of `Drop` is allowed where it happens:
      each destroys an object nothing live depends on any more. Afterwards the
      context's objects are gone, nothing else changed, the log ends with the
      six destructions, and the ledger is still valid. */
  lemma DropRuns(s: LedgerState, ctx: VulkanContext)
    requires CanDrop(s, ctx)
    ensures Runs(s, DropScript(ctx))
    ensures Run(s, DropScript(ctx)).Valid()
    ensures Run(s, DropScript(ctx)).live == s.live - ctx.Handles()
    ensures Run(s, DropScript(ctx)).log == s.log + TeardownEvents(ctx)
    ensures Run(s, DropScript(ctx)).kind == s.kind && Run(s, DropScript(ctx)).deps == s.deps
    ensures Run(s, DropScript(ctx)).next == s.next
  {
    var ops := DropScript(ctx);
    DropIsTeardownOrder(s, ctx);
    TeardownRuns(s, ops, DropOrder(ctx));
    RunOfFrees(s, ops);
    RunKeepsValid(s, ops);
    DropLogsTeardown(ctx);
  }

  /** With a device, `Drop`'s destructions are `TeardownEvents`. */
  lemma DropLogsTeardown(ctx: VulkanContext)
    requires ctx.device != NULL_HANDLE
    ensures forall k :: 0 <= k < |DropScript(ctx)| ==> DropScript(ctx)[k].Free?
    ensures Destructions(DropScript(ctx)) == TeardownEvents(ctx)
  {
    var ops := DropScript(ctx);
    assert ops == [Free(ctx.pipeline, Pipeline), Free(ctx.pipelineLayout, PipelineLayout),
                   Free(ctx.descriptorSetLayout, DescriptorSetLayout), Free(ctx.shaderModule, ShaderModule),
                   Free(ctx.device, Device), Free(ctx.instance, Instance)];
    var events := Destructions(ops);
    assert |events| == 6;
    assert events[0] == Destroyed(ctx.pipeline, Pipeline);
    assert events[1] == Destroyed(ctx.pipelineLayout, PipelineLayout);
    assert events[2] == Destroyed(ctx.descriptorSetLayout, DescriptorSetLayout);
    assert events[3] == Destroyed(ctx.shaderModule, ShaderModule);
    assert events[4] == Destroyed(ctx.device, Device);
    assert events[5] == Destroyed(ctx.instance, Instance);
  }

  /** `Drop for VulkanContext`: each step destroys an object no live object
      depends on any more; when it is done the context's objects are gone,
      nothing else changed, and the log ends with their destructions. Its
      branch on a null device mirrors the source; `CanDrop` makes the device
      live, so the branch is always taken. */
  method Drop(ledger: Ledger, ctx: VulkanContext)
    requires CanDrop(ledger.state, ctx)
    modifies ledger
    ensures ledger.state == Run(old(ledger.state), DropScript(ctx))
    ensures ledger.state.Valid()
    ensures ledger.state.live == old(ledger.state.live) - ctx.Handles()
    ensures ledger.state.log == old(ledger.state.log) + TeardownEvents(ctx)
  {
    ghost var s0 := ledger.state;
    ghost var ops := DropScript(ctx);
    DropRuns(s0, ctx);
    DropCalls(ctx);
    DestroyNext(ledger, ctx.pipeline, Pipeline, s0, ops, 0);
    DestroyNext(ledger, ctx.pipelineLayout, PipelineLayout, s0, ops, 1);
    DestroyNext(ledger, ctx.descriptorSetLayout, DescriptorSetLayout, s0, ops, 2);
    DestroyNext(ledger, ctx.shaderModule, ShaderModule, s0, ops, 3);
    ghost var n := 4;
    if ctx.device != NULL_HANDLE {
      DestroyNext(ledger, ctx.device, Device, s0, ops, n);
      n := n + 1;
    }
    DestroyNext(ledger, ctx.instance, Instance, s0, ops, n);
    assert ops[..n + 1] == ops;
  }

  /** Destruction `n` of the script `ops` started from `s0`. */
  method DestroyNext(ledger: Ledger, h: Handle, k: Kind, ghost s0: LedgerState, ghost ops: seq<Op>, ghost n: nat)
    requires Runs(s0, ops) && n < |ops| && ops[n] == Free(h, k) && ledger.state == Run(s0, ops[..n])
    modifies ledger
    ensures ledger.state == Run(s0, ops[..n + 1])
  {
    assert Enabled(Run(s0, ops[..n]), ops[n]);
    RunNext(s0, ops, n);
    ledger.Destroy(h, k);
  }


  /** `Drop` destroys the context's objects in exactly the reverse of the order
      `new` created them in. */
  lemma TeardownReversesCreation(ctx: VulkanContext)
    ensures |TeardownEvents(ctx)| == |CreationEvents(ctx)| == |CONTEXT_KINDS|
    ensures forall i :: 0 <= i < |CONTEXT_KINDS| ==>
      && TeardownEvents(ctx)[i].handle == CreationEvents(ctx)[|CONTEXT_KINDS| - 1 - i].handle
      && TeardownEvents(ctx)[i].kind == CreationEvents(ctx)[|CONTEXT_KINDS| - 1 - i].kind
      && TeardownEvents(ctx)[i].Destroyed? && CreationEvents(ctx)[i].Created?
      && CreationEvents(ctx)[i].kind == CONTEXT_KINDS[i]
  {
  }
}
