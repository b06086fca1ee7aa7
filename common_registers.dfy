// The render-state registers a Gfx6-family graphics pipeline derives from its
// binary's register image together with the create info, the chip and the
// driver settings (GraphicsPipeline::SetupCommonRegisters): PA_SC_MODE_CNTL_1,
// DB_RENDER_OVERRIDE, VGT_TF_PARAM, VGT_VERTEX_REUSE_BLOCK_CNTL and
// SPI_INTERP_CONTROL_0.  Each register is described by a function of its
// inputs; the pipeline's setup method is proved to compute them.
module CommonRegisters {
  import opened Common
  import opened Registers
  import opened Device

  /** The largest OUT_OF_ORDER_WATER_MARK the hardware accepts. */
  const MaxOutOfOrderWatermark: nat := 7

  /** Number of VS export semantics; a half-pack threshold at least this large disables half-pack mode. */
  const MaxVsExportSemantics: nat := 32

  /** The rasterizer-state fields of the create info that these registers read. */
  datatype RasterizerState = RasterizerState(
    outOfOrderPrimsEnable: bool,
    forceSampleRateShading: bool,
    depthClampDisable: bool,
    flatShading: bool,
    pointOriginUpperLeft: bool)

  // ---- PA_SC_MODE_CNTL_1 ----

  /** Number of pipes a GB_TILE_MODE0.PIPE_CONFIG value describes; 0 for values no chip reports. */
  function PipeCount(pipeConfig: bv32): nat
  {
    if pipeConfig <= 3 then 2
    else if pipeConfig <= 7 then 4
    else if pipeConfig <= 14 then 8
    else if pipeConfig == 16 || pipeConfig == 17 then 16
    else 0
  }

  /**
   * WALK_FENCE_SIZE by pipe configuration: 256 pixels (field value 2) for the
   * two-pipe configurations, 512 pixels (3) for the four-, eight- and
   * sixteen-pipe ones, unchanged for any other value.
   */
  function WalkFence(w: bv32, pipeConfig: bv32): (r: bv32)
    ensures OutOfOrderPrimitiveEnable(r) == OutOfOrderPrimitiveEnable(w)
    ensures OutOfOrderWaterMark(r) == OutOfOrderWaterMark(w)
    ensures PsIterSample(r) == PsIterSample(w)
  {
    if pipeConfig <= 3 then SetWalkFenceSize(w, 2)
    else if pipeConfig <= 14 || pipeConfig == 16 || pipeConfig == 17 then SetWalkFenceSize(w, 3)
    else w
  }

  /** The watermark setting clamped to the hardware maximum. */
  function ClampedWatermark(setting: u32): (v: bv32)
    ensures v as int == Min(MaxOutOfOrderWatermark, setting)
  {
    if setting < MaxOutOfOrderWatermark then setting as bv32 else MaxOutOfOrderWatermark as bv32
  }

  /** PA_SC_MODE_CNTL_1: the binary's value with the driver's overrides applied in order. */
  function ModeCntl1(binary: bv32, rs: RasterizerState, settings: Settings, gbTileMode0: bv32): bv32
  {
    var w1 := SetOutOfOrderWaterMark(binary, ClampedWatermark(settings.gfx7OutOfOrderWatermark));
    var w2 := if rs.outOfOrderPrimsEnable && settings.gfx7EnableOutOfOrderPrimitives != OutOfOrderPrimDisable
              then SetOutOfOrderPrimitiveEnable(w1, 1) else w1;
    var w3 := WalkFence(w2, PipeConfig(gbTileMode0));
    SetPsIterSample(w3, PsIterSample(w3) | (if rs.forceSampleRateShading then 1 else 0))
  }

  /** The watermark is the setting clamped to 7. */
  lemma ModeCntl1Watermark(binary: bv32, rs: RasterizerState, settings: Settings, gbTileMode0: bv32)
    ensures OutOfOrderWaterMark(ModeCntl1(binary, rs, settings, gbTileMode0)) as int ==
              Min(MaxOutOfOrderWatermark, settings.gfx7OutOfOrderWatermark)
  {
  }

  /**
   * Out-of-order primitives are enabled when the rasterizer asks and the
   * setting allows; otherwise the binary's value is kept.
   */
  lemma ModeCntl1OutOfOrder(binary: bv32, rs: RasterizerState, settings: Settings, gbTileMode0: bv32)
    ensures OutOfOrderPrimitiveEnable(ModeCntl1(binary, rs, settings, gbTileMode0)) ==
              if rs.outOfOrderPrimsEnable && settings.gfx7EnableOutOfOrderPrimitives != OutOfOrderPrimDisable
              then 1 else OutOfOrderPrimitiveEnable(binary)
  {
    var w1 := SetOutOfOrderWaterMark(binary, ClampedWatermark(settings.gfx7OutOfOrderWatermark));
    var w2 := if rs.outOfOrderPrimsEnable && settings.gfx7EnableOutOfOrderPrimitives != OutOfOrderPrimDisable
              then SetOutOfOrderPrimitiveEnable(w1, 1) else w1;
    assert OutOfOrderPrimitiveEnable(WalkFence(w2, PipeConfig(gbTileMode0))) == OutOfOrderPrimitiveEnable(w2);
  }

  /** The walk fence is 256 pixels for two pipes, 512 for four or more, and the binary's for unknown configs. */
  lemma ModeCntl1WalkFence(binary: bv32, rs: RasterizerState, settings: Settings, gbTileMode0: bv32)
    ensures var w := ModeCntl1(binary, rs, settings, gbTileMode0);
            var pipes := PipeCount(PipeConfig(gbTileMode0));
            && (pipes == 2 ==> WalkFenceSize(w) == 2)
            && (pipes >= 4 ==> WalkFenceSize(w) == 3)
            && (pipes == 0 ==> WalkFenceSize(w) == WalkFenceSize(binary))
  {
  }

  /** Per-sample shading is on when the binary or the rasterizer asks for it. */
  lemma ModeCntl1PerSample(binary: bv32, rs: RasterizerState, settings: Settings, gbTileMode0: bv32)
    ensures PsIterSample(ModeCntl1(binary, rs, settings, gbTileMode0)) == 1 <==>
              PsIterSample(binary) == 1 || rs.forceSampleRateShading
  {
    var w1 := SetOutOfOrderWaterMark(binary, ClampedWatermark(settings.gfx7OutOfOrderWatermark));
    var w2 := if rs.outOfOrderPrimsEnable && settings.gfx7EnableOutOfOrderPrimitives != OutOfOrderPrimDisable
              then SetOutOfOrderPrimitiveEnable(w1, 1) else w1;
    var w3 := WalkFence(w2, PipeConfig(gbTileMode0));
    assert PsIterSample(w3) == PsIterSample(binary);
    var f: bv32 := if rs.forceSampleRateShading then 1 else 0;
    BitOr(PsIterSample(w3), f);
  }

  lemma BitOr(a: bv32, b: bv32)
    requires a <= 1 && b <= 1
    ensures a | b <= 1 && (a | b == 1 <==> a == 1 || b == 1)
  {
  }

  // ---- DB_RENDER_OVERRIDE ----

  /** The DB_RENDER_OVERRIDE fields the pipeline owns and writes with a read-modify-write at bind time. */
  const DbRenderOverrideRmwMask: bv32 := FORCE_SHADER_Z_ORDER_MASK | FORCE_STENCIL_READ_MASK | DISABLE_VIEWPORT_CLAMP_MASK

  /** Re-Z is in use: Z_ORDER is RE_Z or EARLY_Z_THEN_RE_Z. */
  predicate UsesReZ(dbShaderControl: bv32)
  {
    ZOrder(dbShaderControl) == RE_Z || ZOrder(dbShaderControl) == EARLY_Z_THEN_RE_Z
  }

  /**
   * DB_RENDER_OVERRIDE after the pipeline's updates to its current value:
   * viewport clamping disabled as the rasterizer asks (only with a
   * depth-exporting shader when the setting ties it to Z export), shader Z
   * order forced with Re-Z, and, under the Re-Z stencil-corruption
   * workaround, stencil reads forced whenever Re-Z is in use.
   */
  function DbRenderOverride(current: bv32, dbShaderControl: bv32, rs: RasterizerState, depthClampBasedOnZExport: bool,
                            waDbReZStencilCorruption: bool): bv32
  {
    var clampOff := if depthClampBasedOnZExport then rs.depthClampDisable && ZExportEnable(dbShaderControl) != 0
                    else rs.depthClampDisable;
    var w1 := SetDisableViewportClamp(current, if clampOff then 1 else 0);
    var w2 := SetForceShaderZOrder(w1, if ZOrder(dbShaderControl) == RE_Z then 1 else 0);
    if waDbReZStencilCorruption && UsesReZ(dbShaderControl) then SetForceStencilRead(w2, 1) else w2
  }

  /**
   * The three fields of DB_RENDER_OVERRIDE the pipeline decides: the first
   * two are assigned, the stencil read is only ever forced on.
   */
  lemma DbRenderOverrideFields(current: bv32, dbShaderControl: bv32, rs: RasterizerState, basedOnZExport: bool, wa: bool)
    ensures var w := DbRenderOverride(current, dbShaderControl, rs, basedOnZExport, wa);
            && (DisableViewportClamp(w) == 1 <==>
                  rs.depthClampDisable && (!basedOnZExport || ZExportEnable(dbShaderControl) != 0))
            && (ForceShaderZOrder(w) == 1 <==> ZOrder(dbShaderControl) == RE_Z)
            && (ForceStencilRead(w) == 1 <==> (wa && UsesReZ(dbShaderControl)) || ForceStencilRead(current) == 1)
  {
  }

  /**
   * Built from zero, as the pipeline's constructor leaves the register,
   * DB_RENDER_OVERRIDE has no bit outside the fields it writes at bind time.
   */
  lemma DbRenderOverrideWithinRmwMask(dbShaderControl: bv32, rs: RasterizerState, basedOnZExport: bool, wa: bool)
    ensures DbRenderOverride(0, dbShaderControl, rs, basedOnZExport, wa) & !DbRenderOverrideRmwMask == 0
  {
  }

  /**
   * A read-modify-write of DB_RENDER_OVERRIDE with the pipeline's mask keeps
   * every field of a mask disjoint from it, such as the depth/stencil view's.
   */
  lemma RmwKeepsDisjointFields(current: bv32, value: bv32, otherMask: bv32)
    requires otherMask & DbRenderOverrideRmwMask == 0
    ensures ((current & !DbRenderOverrideRmwMask) | (value & DbRenderOverrideRmwMask)) & otherMask ==
              current & otherMask
  {
  }

  // ---- VGT_TF_PARAM ----

  /**
   * VGT_TF_PARAM: the binary's value (zero when absent); with dynamic
   * tessellation and a non-zero NUM_DS_WAVES_PER_SIMD, the field takes the
   * overflow setting truncated to its four bits.
   */
  function TfParam(binary: bv32, vgtShaderStagesEn: bv32, dsWavesPerSimdOverflow: u32): bv32
  {
    if NumDsWavesPerSimd(binary) != 0 && DynamicHs(vgtShaderStagesEn) != 0 then
      SetNumDsWavesPerSimd(binary, (dsWavesPerSimdOverflow % 16) as bv32)
    else binary
  }

  /** The DS-waves override touches only NUM_DS_WAVES_PER_SIMD, and only under dynamic tessellation. */
  lemma TfParamOverride(binary: bv32, stagesEn: bv32, overflow: u32)
    ensures var w := TfParam(binary, stagesEn, overflow);
            && Partitioning(w) == Partitioning(binary)
            && DistributionMode(w) == DistributionMode(binary)
            && (NumDsWavesPerSimd(binary) != 0 && DynamicHs(stagesEn) != 0 ==>
                  NumDsWavesPerSimd(w) as int == overflow % 16)
            && (NumDsWavesPerSimd(binary) == 0 || DynamicHs(stagesEn) == 0 ==> w == binary)
  {
  }

  // ---- VGT_VERTEX_REUSE_BLOCK_CNTL ----

  /** The deeper reuse depth is usable: Gfx8+, half-pack off, and no fractional-odd degenerate filtering. */
  predicate DeepVertexReuse(chip: ChipProperties, settings: Settings, degeneratePrimFilter: bool,
                            tessEnabled: bool, tfParam: bv32)
  {
    chip.gfxLevel.AtLeast(GfxIp8) && settings.vsHalfPackThreshold >= MaxVsExportSemantics &&
    (!degeneratePrimFilter || (tessEnabled && Partitioning(tfParam) != PART_FRAC_ODD))
  }

  /** VGT_VERTEX_REUSE_BLOCK_CNTL with VTX_REUSE_DEPTH 14, or 30 where the deeper depth is usable. */
  function VertexReuseBlockCntl(current: bv32, chip: ChipProperties, settings: Settings, degeneratePrimFilter: bool,
                                tessEnabled: bool, tfParam: bv32): bv32
  {
    var w := SetVtxReuseDepth(current, 14);
    if DeepVertexReuse(chip, settings, degeneratePrimFilter, tessEnabled, tfParam) then SetVtxReuseDepth(w, 30)
    else w
  }

  /**
   * VTX_REUSE_DEPTH is 14 or 30, and 30 exactly when the deeper depth is
   * usable; in particular fractional-odd tessellation with degenerate
   * primitive filtering always keeps 14.
   */
  lemma VertexReuseDepthChoice(current: bv32, chip: ChipProperties, settings: Settings, filter: bool, tess: bool,
                               tfParam: bv32)
    ensures var d := VtxReuseDepth(VertexReuseBlockCntl(current, chip, settings, filter, tess, tfParam));
            && (d == 14 || d == 30)
            && (d == 30 <==> DeepVertexReuse(chip, settings, filter, tess, tfParam))
            && (filter && (!tess || Partitioning(tfParam) == PART_FRAC_ODD) ==> d == 14)
            && (!chip.gfxLevel.AtLeast(GfxIp8) ==> d == 14)
  {
  }

  // ---- SPI_INTERP_CONTROL_0 ----

  /**
   * SPI_INTERP_CONTROL_0: the binary's value (zero when absent) with flat
   * shading as the rasterizer asks and, in point-sprite mode, the sprite's
   * origin flipped unless it is the upper-left corner.
   */
  function InterpControl0(binary: bv32, rs: RasterizerState): bv32
  {
    var w := SetFlatShadeEna(binary, if rs.flatShading then 1 else 0);
    if PntSpriteEna(w) != 0 then SetPntSpriteTop1(w, if rs.pointOriginUpperLeft then 0 else 1) else w
  }

  /**
   * Flat shading is exactly as the rasterizer asks; the sprite origin is
   * decided only in point-sprite mode and kept otherwise.
   */
  lemma InterpControl0Fields(binary: bv32, rs: RasterizerState)
    ensures var w := InterpControl0(binary, rs);
            && (FlatShadeEna(w) == 1 <==> rs.flatShading)
            && PntSpriteEna(w) == PntSpriteEna(binary)
            && (PntSpriteEna(binary) != 0 ==> (PntSpriteTop1(w) == 1 <==> !rs.pointOriginUpperLeft))
            && (PntSpriteEna(binary) == 0 ==> PntSpriteTop1(w) == PntSpriteTop1(binary))
  {
  }
}
