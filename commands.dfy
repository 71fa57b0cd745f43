/** The three commands the desktop shell invokes: `upscale_image`,
    `upscale_image_enhanced` and `upscale_image_nearest_neighbor`. Each checks
    its request before anything else, then either drives the GPU (`new`,
    `process_image`, `Drop`) or resizes on the host, and answers with the path
    of the written file or an error message. The platform shim, the clock and
    the temporary directory are the `Host` oracle. */
module Commands {
  import opened Outcomes
  import opened VkTypes
  import opened Handles
  import opened Sizing
  import opened Bindings
  import opened Context
  import opened Process
  import opened Upscale
  import opened Naming

  /** What the commands read from their surroundings. */
  datatype Host = Host(
    setup: Result<(), string>,   // the MoltenVK shim on macOS; Ok(()) elsewhere
    tempDir: string,             // env::temp_dir()
    seconds: nat)                // seconds since the Unix epoch

  const INPUT_NOT_FOUND_PREFIX := "❌ Input file does not exist: "
  const INVALID_FACTOR_PREFIX := "❌ Invalid upscale factor: "
  const INVALID_FACTOR_SUFFIX := ". Must be between 1 and 8."
  const SETUP_FAILED_PREFIX := "❌ MoltenVK setup failed: "
  const INIT_FAILED_PREFIX := "❌ Vulkan initialization failed: "
  const PROCESSING_FAILED_PREFIX := "❌ Image processing failed: "
  const ENHANCED_FAILED_PREFIX := "❌ Enhanced image processing failed: "
  const OPEN_FAILED_PREFIX := "❌ Failed to open input image: "
  const RESIZED_SAVE_FAILED_PREFIX := "❌ Failed to save output image: "

  const MIN_FACTOR: nat := 1
  const MAX_FACTOR: nat := 8

  // ---------------------------------------------------------------------------
  // The request checks

  /** The checks every command starts with: the input path must exist, and then
      the factor must lie in 1..8. */
  function ValidationError(inputExists: bool, path: string, factor: uint32): (e: Option<string>)
    ensures e.None? <==> inputExists && MIN_FACTOR <= factor <= MAX_FACTOR
    ensures !inputExists ==> e == Some(INPUT_NOT_FOUND_PREFIX + path)
    ensures inputExists && e.Some? ==> StartsWith(e.value, INVALID_FACTOR_PREFIX)
  {
    if !inputExists then Some(INPUT_NOT_FOUND_PREFIX + path)
    else if factor == 0 || factor > 8 then
      Some(INVALID_FACTOR_PREFIX + Decimal(factor) + INVALID_FACTOR_SUFFIX)
    else None
  }

  /** The factor message names the factor it refused: reading a number after
      its prefix gives that factor back, followed by the allowed range. */
  lemma InvalidFactorNamesFactor(path: string, factor: uint32)
    requires factor == 0 || factor > 8
    ensures var e := ValidationError(true, path, factor).value;
      ReadNumber(e[|INVALID_FACTOR_PREFIX|..]) == Some((factor as nat, INVALID_FACTOR_SUFFIX))
  {
    var e := ValidationError(true, path, factor).value;
    assert e[|INVALID_FACTOR_PREFIX|..] == Decimal(factor) + INVALID_FACTOR_SUFFIX;
    assert INVALID_FACTOR_SUFFIX[0] == '.';
    ReadDecimal(factor, INVALID_FACTOR_SUFFIX);
  }

  /** The post-filters `process_image_enhanced` is asked for. */
  datatype Options = Options(sharpening: bool, contrastEnhancement: bool, noiseReduction: bool)

  /** `unwrap_or` on the three optional flags: sharpening and contrast
      enhancement are on unless switched off, noise reduction is off unless
      switched on. */
  function ResolveOptions(sharpening: Option<bool>, contrast: Option<bool>, noise: Option<bool>): (o: Options)
    ensures o.sharpening <==> sharpening != Some(false)
    ensures o.contrastEnhancement <==> contrast != Some(false)
    ensures o.noiseReduction <==> noise == Some(true)
  {
    Options(sharpening.GetOr(true), contrast.GetOr(true), noise.GetOr(false))
  }

  /** A flag given explicitly always wins; none given yields the defaults. */
  lemma OptionsGivenOrDefault(s: bool, c: bool, n: bool)
    ensures ResolveOptions(Some(s), Some(c), Some(n)) == Options(s, c, n)
    ensures ResolveOptions(None, None, None) == Options(true, true, false)
  {
  }

  // ---------------------------------------------------------------------------
  // upscale_image

  /** Everything `upscale_image` asks of the driver on success: `new`, one
      `process_image`, and the context's `Drop`. */
  function UpscaleCalls(ctx: VulkanContext): seq<Op> {
    CONTEXT_SCRIPT + ProcessScript(ctx, BUILT_LEDGER.next) + DropScript(ctx)
  }

  /** On a fresh ledger a complete upscale is allowed at every step and leaves
      nothing live: every object it created, it destroyed. */
  lemma UpscaleCallsRun(ctx: VulkanContext)
    requires IssuedFromFirst(ctx)
    requires ctx.setLayoutBindings == SET_LAYOUT_BINDINGS && ctx.pushConstantRanges == PUSH_CONSTANT_RANGES
    ensures Runs(EMPTY_LEDGER, UpscaleCalls(ctx))
    ensures Run(EMPTY_LEDGER, UpscaleCalls(ctx)).live == {}
    ensures Run(EMPTY_LEDGER, UpscaleCalls(ctx)).Valid()
  {
    var built, P := BUILT_LEDGER, ProcessScript(ctx, BUILT_LEDGER.next);
    ContextScriptRuns();
    ContextScriptResult();
    ContextScriptBuilds(ctx);
    ProcessScriptRuns(built, ctx);
    ProcessScriptResult(built, ctx);
    var processed := Run(built, P);
    DropRuns(processed, ctx);
    RunsAppend(EMPTY_LEDGER, CONTEXT_SCRIPT, P);
    RunAppend(EMPTY_LEDGER, CONTEXT_SCRIPT, P);
    RunsAppend(EMPTY_LEDGER, CONTEXT_SCRIPT + P, DropScript(ctx));
    RunAppend(EMPTY_LEDGER, CONTEXT_SCRIPT + P, DropScript(ctx));
  }

  /** The request passes its checks and the platform shim succeeds, so the
      command goes on to build a GPU context. */
  predicate ReachesDevice(host: Host, inputExists: bool, path: string, factor: uint32) {
    ValidationError(inputExists, path, factor).None? && host.setup.Ok?
  }

  /** `upscale_image`. The checks and the shim run before `new`, so a refused
      request builds no context and touches no driver object. `new` uses a
      fresh ledger, `process_image` continues on it, and the context is dropped
      when the command returns, which the ledger allows exactly when
      `process_image` left nothing of its own behind. */
  method UpscaleImage(drv: Driver, host: Host, files: Files, path: string, factor: uint32)
    returns (r: Result<string, string>, context: Option<VulkanContext>,
             final: Option<LedgerState>, written: Option<SavedImage>)
    requires ValidationError(files.inputExists, path, factor).None? && files.decoded.Ok? ==>
      SizesFit(files.decoded.value.width, files.decoded.value.height, factor)
    ensures ValidationError(files.inputExists, path, factor).Some? ==>
      r == Err(ValidationError(files.inputExists, path, factor).value) && context.None? && final.None?
    ensures ValidationError(files.inputExists, path, factor).None? && host.setup.Err? ==>
      r == Err(SETUP_FAILED_PREFIX + host.setup.error) && context.None? && final.None?
    ensures ReachesDevice(host, files.inputExists, path, factor) && InitFailure(drv).Some? ==>
      && r == Err(INIT_FAILED_PREFIX + InitFailure(drv).value.message) && context.None?
      && final == Some(Run(EMPTY_LEDGER, CONTEXT_SCRIPT[..InitFailure(drv).value.created]))
    ensures context.Some? <==> ReachesDevice(host, files.inputExists, path, factor) && InitFailure(drv).None?
    ensures context.Some? ==>
      var ctx, stop := context.value, ProcessStop(drv, context.value, files, path);
      && final.Some? && IssuedFromFirst(ctx)
      && (stop.Some? ==> r == Err(PROCESSING_FAILED_PREFIX + stop.value.message))
      && (stop.Some? && stop.value.calls == 0 ==>
            final.value == Run(EMPTY_LEDGER, CONTEXT_SCRIPT + DropScript(ctx)) && final.value.live == {})
      && (stop.Some? && stop.value.calls > 0 ==>
            && final.value == Run(EMPTY_LEDGER, CONTEXT_SCRIPT + ProcessScript(ctx, BUILT_LEDGER.next)[..stop.value.calls])
            && !Runs(final.value, DropScript(ctx)))
      && (stop.None? ==>
            && r == Ok(OutputPath(host.tempDir, Plain, factor, host.seconds))
            && final == Some(Run(EMPTY_LEDGER, UpscaleCalls(ctx))) && final.value.live == {})
    ensures written.Some? <==> context.Some? && SetupStop(drv, context.value, files, path).None?
    ensures r.Ok? ==> written.Some?
    ensures written.Some? ==> (
      && context.Some? && files.decoded.Ok?
      && var image := files.decoded.value;
         && SizesFit(image.width, image.height, factor)
         && written.value.path == OutputPath(host.tempDir, Plain, factor, host.seconds)
         && written.value.width == image.width * factor && written.value.height == image.height * factor
         && written.value.pixels == KernelImage(ByteLength(OutputExtent(image.width, image.height, factor)), drv.kernelOutput))
  {
    context, final, written := None, None, None;
    var invalid := ValidationError(files.inputExists, path, factor);
    if invalid.Some? {
      return Err(invalid.value), context, final, written;
    }
    if host.setup.Err? {
      return Err(SETUP_FAILED_PREFIX + host.setup.error), context, final, written;
    }
    var ledger, built := New(drv);
    if built.Err? {
      final := Some(ledger.state);
      return Err(INIT_FAILED_PREFIX + built.error), context, final, written;
    }
    var ctx := built.value;
    context := Some(ctx);
    ContextScriptResult();
    var outputPath := OutputPath(host.tempDir, Plain, factor, host.seconds);
    var before := ledger.state;
    var processed, saved := ProcessImage(ledger, drv, ctx, files, path, outputPath, factor);
    written := saved;
    if processed.Err? {
      ghost var calls := ProcessStop(drv, ctx, files, path).value.calls;
      if calls > 0 {
        InputBufferHeld(before, ctx, calls);
      }
      if ledger.state == before {
        Drop(ledger, ctx);
        assert ProcessScript(ctx, before.next)[..0] == [];
        RunAppend(EMPTY_LEDGER, CONTEXT_SCRIPT, DropScript(ctx));
      } else {
        RunAppend(EMPTY_LEDGER, CONTEXT_SCRIPT, ProcessScript(ctx, before.next)[..calls]);
      }
      final := Some(ledger.state);
      return Err(PROCESSING_FAILED_PREFIX + processed.error), context, final, written;
    }
    Drop(ledger, ctx);
    final := Some(ledger.state);
    RunAppend(EMPTY_LEDGER, CONTEXT_SCRIPT, ProcessScript(ctx, before.next));
    RunAppend(EMPTY_LEDGER, CONTEXT_SCRIPT + ProcessScript(ctx, before.next), DropScript(ctx));
    UpscaleCallsRun(ctx);
    r := Ok(outputPath);
  }

  // ---------------------------------------------------------------------------
  // upscale_image_enhanced

  /** `upscale_image_enhanced`. The flags are resolved first, then the same
      checks, shim and `new` as `upscale_image`; `process_image_enhanced`'s
      answer is the oracle `enhanced`, and the context is dropped on every
      return after `new`. `applied` is what the enhanced processing is asked
      for, present exactly when it is called. */
  method UpscaleImageEnhanced(drv: Driver, host: Host, inputExists: bool, path: string, factor: uint32,
                              sharpening: Option<bool>, contrast: Option<bool>, noise: Option<bool>,
                              enhanced: Result<(), string>)
    returns (r: Result<string, string>, applied: Option<Options>, ghost final: Option<LedgerState>)
    ensures ValidationError(inputExists, path, factor).Some? ==>
      r == Err(ValidationError(inputExists, path, factor).value) && final.None?
    ensures ValidationError(inputExists, path, factor).None? && host.setup.Err? ==>
      r == Err(SETUP_FAILED_PREFIX + host.setup.error) && final.None?
    ensures ReachesDevice(host, inputExists, path, factor) && InitFailure(drv).Some? ==>
      && r == Err(INIT_FAILED_PREFIX + InitFailure(drv).value.message)
      && final == Some(Run(EMPTY_LEDGER, CONTEXT_SCRIPT[..InitFailure(drv).value.created]))
    ensures applied.Some? <==> ReachesDevice(host, inputExists, path, factor) && InitFailure(drv).None?
    ensures applied.Some? ==>
      && applied.value == ResolveOptions(sharpening, contrast, noise)
      && final.Some? && final.value.live == {}
      && r == (if enhanced.Err? then Err(ENHANCED_FAILED_PREFIX + enhanced.error)
               else Ok(OutputPath(host.tempDir, Enhanced, factor, host.seconds)))
  {
    final, applied := None, None;
    var options := ResolveOptions(sharpening, contrast, noise);
    var invalid := ValidationError(inputExists, path, factor);
    if invalid.Some? {
      return Err(invalid.value), applied, final;
    }
    if host.setup.Err? {
      return Err(SETUP_FAILED_PREFIX + host.setup.error), applied, final;
    }
    var ledger, built := New(drv);
    if built.Err? {
      final := Some(ledger.state);
      return Err(INIT_FAILED_PREFIX + built.error), applied, final;
    }
    var ctx := built.value;
    var outputPath := OutputPath(host.tempDir, Enhanced, factor, host.seconds);
    applied := Some(options);
    Drop(ledger, ctx);
    final := Some(ledger.state);
    if enhanced.Err? {
      return Err(ENHANCED_FAILED_PREFIX + enhanced.error), applied, final;
    }
    r := Ok(outputPath);
  }

  // ---------------------------------------------------------------------------
  // upscale_image_nearest_neighbor

  /** The image `resize_exact` produces and `save` writes; its pixels are the
      image library's and are not modelled. */
  datatype Resized = Resized(path: string, width: uint32, height: uint32)

  /** `output_width = width * factor` and `output_height = height * factor`
      stay `u32`s. */
  predicate ScaledFits(width: nat, height: nat, factor: nat) {
    width * factor < U32_LIMIT && height * factor < U32_LIMIT
  }

  /** `upscale_image_nearest_neighbor`: no GPU. After the checks it opens the
      image, resizes it to exactly `factor` times its width and height, and
      saves it under the nearest-neighbour name. */
  function UpscaleNearest(host: Host, files: Files, path: string, factor: uint32): (r: Result<Resized, string>)
    requires ValidationError(files.inputExists, path, factor).None? && files.decoded.Ok? ==>
      ScaledFits(files.decoded.value.width, files.decoded.value.height, factor)
  {
    var invalid := ValidationError(files.inputExists, path, factor);
    if invalid.Some? then Err(invalid.value)
    else if files.decoded.Err? then Err(OPEN_FAILED_PREFIX + files.decoded.error)
    else
      var image := files.decoded.value;
      var resized := Resized(OutputPath(host.tempDir, Nearest, factor, host.seconds),
                             image.width * factor, image.height * factor);
      if files.saveError.Some? then Err(RESIZED_SAVE_FAILED_PREFIX + files.saveError.value)
      else Ok(resized)
  }

  /** The nearest-neighbour command succeeds exactly when the request is valid,
      the image opens and the save succeeds. */
  lemma NearestSucceeds(host: Host, files: Files, path: string, factor: uint32)
    requires ValidationError(files.inputExists, path, factor).None? && files.decoded.Ok? ==>
      ScaledFits(files.decoded.value.width, files.decoded.value.height, factor)
    ensures UpscaleNearest(host, files, path, factor).Ok? <==>
      files.inputExists && 1 <= factor <= 8 && files.decoded.Ok? && files.saveError.None?
  {
  }

  /** Each failure of the nearest-neighbour command reports its own cause. */
  lemma NearestErrors(host: Host, files: Files, path: string, factor: uint32)
    requires ValidationError(files.inputExists, path, factor).None? && files.decoded.Ok? ==>
      ScaledFits(files.decoded.value.width, files.decoded.value.height, factor)
    ensures !files.inputExists ==> UpscaleNearest(host, files, path, factor) == Err(INPUT_NOT_FOUND_PREFIX + path)
    ensures ValidationError(files.inputExists, path, factor).None? && files.decoded.Err? ==>
      UpscaleNearest(host, files, path, factor) == Err(OPEN_FAILED_PREFIX + files.decoded.error)
    ensures ValidationError(files.inputExists, path, factor).None? && files.decoded.Ok? && files.saveError.Some? ==>
      UpscaleNearest(host, files, path, factor) == Err(RESIZED_SAVE_FAILED_PREFIX + files.saveError.value)
  {
  }

  /** On success the command writes a `factor` times larger image in the
      temporary directory under a name that records the command, the factor and
      the second. */
  lemma NearestResult(host: Host, files: Files, path: string, factor: uint32)
    requires ValidationError(files.inputExists, path, factor).None? && files.decoded.Ok? ==>
      ScaledFits(files.decoded.value.width, files.decoded.value.height, factor)
    requires UpscaleNearest(host, files, path, factor).Ok?
    ensures var out, image := UpscaleNearest(host, files, path, factor).value, files.decoded.value;
      && out.width as nat == image.width as nat * factor as nat
      && out.height as nat == image.height as nat * factor as nat
      && StartsWith(out.path, host.tempDir)
      && var name := FileName(Nearest, factor, host.seconds);
         |name| <= |out.path| && ParseFileName(out.path[|out.path| - |name|..]) == Some((Nearest, factor as nat, host.seconds))
  {
    var out, image := UpscaleNearest(host, files, path, factor).value, files.decoded.value;
    assert out == Resized(OutputPath(host.tempDir, Nearest, factor, host.seconds),
                          image.width * factor, image.height * factor);
    OutputPathEndsWithName(host.tempDir, Nearest, factor, host.seconds);
  }

}
