// The Gfx6-family graphics pipeline object (GraphicsPipeline in
// gfx6GraphicsPipeline.cpp): the register image and user-data signature it
// builds once from the pipeline binary and the create info, and the commands
// it writes whenever it is bound.  The object is a class whose fields the
// setup methods update in place; every method is proved to leave exactly the
// state the specification functions of the other modules describe.
module Pipeline {
  import opened Common
  import opened Registers
  import opened RegisterImage
  import opened Signature
  import opened Device
  import opened WaveBudget
  import opened PrimAssembly
  import opened ColorState
  import opened CommonRegisters
  import opened Emission

  // ---- The uploader ----

  /** One register of an uploaded register image. */
  datatype RegValue = RegValue(addr: u16, value: bv32)

  /**
   * The part of the pipeline uploader the pipeline talks to: whether the
   * load-index path is in use, where the two images will live, how many
   * registers each holds, and the registers added to each image so far.
   */
  class Uploader {
    const enableLoadIndexPath: bool
    const ctxRegGpuVirtAddr: nat
    const shRegGpuVirtAddr: nat
    const ctxRegCount: u32
    const shRegCount: u32
    var ctxRegs: seq<RegValue>
    var shRegs: seq<RegValue>

    constructor (enableLoadIndexPath: bool, ctxRegGpuVirtAddr: nat, shRegGpuVirtAddr: nat,
                 ctxRegCount: u32, shRegCount: u32)
      ensures this.enableLoadIndexPath == enableLoadIndexPath
      ensures this.ctxRegGpuVirtAddr == ctxRegGpuVirtAddr && this.shRegGpuVirtAddr == shRegGpuVirtAddr
      ensures this.ctxRegCount == ctxRegCount && this.shRegCount == shRegCount
      ensures ctxRegs == [] && shRegs == []
    {
      this.enableLoadIndexPath := enableLoadIndexPath;
      this.ctxRegGpuVirtAddr := ctxRegGpuVirtAddr;
      this.shRegGpuVirtAddr := shRegGpuVirtAddr;
      this.ctxRegCount := ctxRegCount;
      this.shRegCount := shRegCount;
      ctxRegs := [];
      shRegs := [];
    }

    /** Adds a context register to the context image. */
    method AddCtxReg(addr: u16, value: bv32)
      modifies this`ctxRegs
      ensures ctxRegs == old(ctxRegs) + [RegValue(addr, value)]
    {
      ctxRegs := ctxRegs + [RegValue(addr, value)];
    }

    /** Adds an SH register to the SH image. */
    method AddShReg(addr: u16, value: bv32)
      modifies this`shRegs
      ensures shRegs == old(shRegs) + [RegValue(addr, value)]
    {
      shRegs := shRegs + [RegValue(addr, value)];
    }
  }

  /** The context registers SetupCommonRegisters adds to the uploaded image, in order. */
  function CommonUploadedRegs(ctx: ContextRegs): seq<RegValue>
  {
    [ RegValue(mmPA_CL_CLIP_CNTL, ctx.paClClipCntl),
      RegValue(mmPA_CL_VTE_CNTL, ctx.paClVteCntl),
      RegValue(mmPA_SU_VTX_CNTL, ctx.paSuVtxCntl),
      RegValue(mmDB_SHADER_CONTROL, ctx.dbShaderControl),
      RegValue(mmVGT_SHADER_STAGES_EN, ctx.vgtShaderStagesEn),
      RegValue(mmVGT_GS_MODE, ctx.vgtGsMode),
      RegValue(mmVGT_REUSE_OFF, ctx.vgtReuseOff),
      RegValue(mmVGT_TF_PARAM, ctx.vgtTfParam),
      RegValue(mmVGT_VERTEX_REUSE_BLOCK_CNTL, ctx.vgtVertexReuseBlockCntl),
      RegValue(mmSPI_INTERP_CONTROL_0, ctx.spiInterpControl0) ]
  }

  /** Appending the ten registers of an image one at a time appends the image. */
  lemma AppendedOneByOne(s: seq<RegValue>, r: seq<RegValue>)
    requires |r| == 10
    ensures s + [r[0]] + [r[1]] + [r[2]] + [r[3]] + [r[4]] + [r[5]] + [r[6]] + [r[7]] + [r[8]] + [r[9]] == s + r
  {
  }

  /** Writing the twelve commands of the set path's image part one at a time writes that part. */
  lemma WrittenOneByOne(s: seq<Command>, r: seq<Command>)
    requires |r| == 12
    ensures s + [r[0]] + [r[1]] + [r[2]] + [r[3]] + [r[4]] + [r[5]] + [r[6]] + [r[7]] + [r[8]] + [r[9]] + [r[10]] + [r[11]] == s + r
  {
  }

  /** The context registers SetupNonShaderRegisters adds to the uploaded image, in order. */
  function NonShaderUploadedRegs(ctx: ContextRegs): seq<RegValue>
  {
    [ RegValue(mmPA_SC_LINE_CNTL, ctx.paScLineCntl),
      RegValue(mmCB_COLOR_CONTROL, ctx.cbColorControl),
      RegValue(mmCB_SHADER_MASK, ctx.cbShaderMask),
      RegValue(mmCB_TARGET_MASK, ctx.cbTargetMask) ]
  }

  /** The pipeline's own part of the uploaded context image. */
  function UploadedContextRegs(ctx: ContextRegs): seq<RegValue>
  {
    CommonUploadedRegs(ctx) + NonShaderUploadedRegs(ctx)
  }

  /** The value a set-path command writes into register `addr`. */
  function WrittenValue(c: Command, addr: u16): bv32
    requires WritesTo(c, ContextSpace, addr)
  {
    match c
    case SetReg(_, _, v) => v
    case SetSeq(_, first, values) => values[addr - first]
    case Rmw(_, _, v) => v
    case _ => 0
  }

  /** Where the set path writes register `k` of the uploaded image. */
  function SetPathSlot(k: nat): (i: nat)
    requires k < 14
    ensures i < 13
  {
    [6, 8, 7, 12, 0, 1, 2, 3, 11, 10, 9, 4, 5, 5][k]
  }

  /** Each common register of the image other than DB_SHADER_CONTROL is written by the shared part of the set path. */
  lemma CommonImageInSetPath(ctx: ContextRegs, k: nat)
    requires k < 10 && k != 3
    ensures var r := CommonUploadedRegs(ctx)[k];
            var c := SetPathImageRegs(ctx)[SetPathSlot(k)];
            WritesTo(c, ContextSpace, r.addr) && WrittenValue(c, r.addr) == r.value
  {
  }

  /** Each register SetupNonShaderRegisters adds to the image is written by the shared part of the set path. */
  lemma NonShaderImageInSetPath(ctx: ContextRegs, k: nat)
    requires k < 4
    ensures var r := NonShaderUploadedRegs(ctx)[k];
            var c := SetPathImageRegs(ctx)[SetPathSlot(k + 10)];
            WritesTo(c, ContextSpace, r.addr) && WrittenValue(c, r.addr) == r.value
  {
    var c := SetSeq(ContextSpace, mmCB_TARGET_MASK, [ctx.cbTargetMask, ctx.cbShaderMask]);
    if k >= 2 {
      assert SetPathImageRegs(ctx)[5] == c;
      assert WrittenValue(c, mmCB_TARGET_MASK) == ctx.cbTargetMask;
      assert WrittenValue(c, mmCB_SHADER_MASK) == ctx.cbShaderMask;
    }
  }

  /**
   * The load path and the set path program the same values: every register
   * of the uploaded image is a counted one, and the set path of a part
   * without the over-rasterization workaround writes it with the value the
   * image holds.
   */
  lemma UploadedImageMatchesSetPath(ctx: ContextRegs, k: nat)
    requires k < |UploadedContextRegs(ctx)|
    ensures var r := UploadedContextRegs(ctx)[k];
            var cmds := ContextCommandsSetPath(ctx, false);
            && r.addr in BaseLoadedContextRegs
            && WritesTo(cmds[SetPathSlot(k)], ContextSpace, r.addr)
            && WrittenValue(cmds[SetPathSlot(k)], r.addr) == r.value
  {
    var r := UploadedContextRegs(ctx)[k];
    var cmds := ContextCommandsSetPath(ctx, false);
    var i := SetPathSlot(k);
    if k == 3 {
      assert r == CommonUploadedRegs(ctx)[3];
      assert cmds[12] == SetReg(ContextSpace, mmDB_SHADER_CONTROL, ctx.dbShaderControl);
    } else {
      SharedImageInSetPath(ctx, k);
      assert i < 12 && cmds[i] == SetPathImageRegs(ctx)[i];
    }
    assert WritesTo(cmds[i], ContextSpace, r.addr) && WrittenValue(cmds[i], r.addr) == r.value;
    SetPathWritesOnlyBaseLoadedRegs(ctx, false, r.addr, i);
  }

  /** Each register of the uploaded image other than DB_SHADER_CONTROL is written by the shared part of the set path. */
  lemma SharedImageInSetPath(ctx: ContextRegs, k: nat)
    requires k < 14 && k != 3
    ensures var r := UploadedContextRegs(ctx)[k];
            var c := SetPathImageRegs(ctx)[SetPathSlot(k)];
            SetPathSlot(k) < 12 && WritesTo(c, ContextSpace, r.addr) && WrittenValue(c, r.addr) == r.value
  {
    if k < 10 {
      assert UploadedContextRegs(ctx)[k] == CommonUploadedRegs(ctx)[k];
      CommonImageInSetPath(ctx, k);
    } else {
      assert UploadedContextRegs(ctx)[k] == NonShaderUploadedRegs(ctx)[k - 10];
      NonShaderImageInSetPath(ctx, k - 10);
    }
  }

  /** Where a single-register command of the shared set path sits in the uploaded image. */
  function UploadedSlot(i: nat): (k: nat)
    requires i < 12 && i != 5
    ensures k < 14 && k != 3 && SetPathSlot(k) == i
  {
    [4, 5, 6, 7, 11, 0, 0, 2, 1, 10, 9, 8][i]
  }

  /**
   * Conversely, every register the set path writes is in the uploaded image
   * with the value the set path writes.
   */
  lemma SetPathRegsAreUploaded(ctx: ContextRegs, i: nat, a: u16)
    requires i < |ContextCommandsSetPath(ctx, false)|
    requires WritesTo(ContextCommandsSetPath(ctx, false)[i], ContextSpace, a)
    ensures exists k :: 0 <= k < |UploadedContextRegs(ctx)| && UploadedContextRegs(ctx)[k] ==
              RegValue(a, WrittenValue(ContextCommandsSetPath(ctx, false)[i], a))
  {
    var up := UploadedContextRegs(ctx);
    var cmds := ContextCommandsSetPath(ctx, false);
    var img := SetPathImageRegs(ctx);
    var k: nat;
    if i == 12 {
      k := 3;
      assert up[k] == CommonUploadedRegs(ctx)[3];
    } else {
      assert cmds[i] == img[i];
      k := if i != 5 then UploadedSlot(i) else if a == mmCB_TARGET_MASK then 13 else 12;
      SharedImageInSetPath(ctx, k);
      if i != 5 {
        assert img[i].SetReg?;
      }
    }
    assert up[k] == RegValue(a, WrittenValue(cmds[i], a));
  }

  // ---- Inputs of the setup ----

  /** What EarlyInit reports to the rest of pipeline creation. */
  datatype LoadInfo = LoadInfo(
    loadedShRegCount: nat,
    loadedCtxRegCount: nat,
    usesOnchipTess: bool,
    usesGs: bool,
    usesOnChipGs: bool,
    esGsLdsSizeRegGs: u16,
    esGsLdsSizeRegVs: u16)

  /** The line-rasterization fields of the create info. */
  datatype LineState = LineState(expandLineWidth: bool, rasterizeLastLinePixel: bool, perpLineEndCapsEnable: bool)

  /** The colour-blend fields of the create info. */
  datatype ColorBlendState = ColorBlendState(
    targets: Targets,
    logicOp: LogicOp,
    dualSourceBlendEnable: bool,
    alphaToCoverageEnable: bool)

  function Bit(b: bool): (v: bv32)
    ensures v <= 1 && (v == 1 <==> b)
  {
    if b then 1 else 0
  }

  /** PA_SC_LINE_CNTL: the three line fields as the create info asks, and the DX10 diamond test always on. */
  function LineCntl(w: bv32, line: LineState): (r: bv32)
    ensures ExpandLineWidth(r) == Bit(line.expandLineWidth)
    ensures LastPixel(r) == Bit(line.rasterizeLastLinePixel)
    ensures PerpendicularEndcapEna(r) == Bit(line.perpLineEndCapsEnable)
    ensures Dx10DiamondTestEna(r) == 1
  {
    var w1 := SetExpandLineWidth(w, Bit(line.expandLineWidth));
    var w2 := SetDx10DiamondTestEna(w1, 1);
    var w3 := SetLastPixel(w2, Bit(line.rasterizeLastLinePixel));
    SetPerpendicularEndcapEna(w3, Bit(line.perpLineEndCapsEnable))
  }

  /** The registers of the binary that SetupCommonRegisters and SetupNonShaderRegisters read unconditionally. */
  predicate HasSetupInputs(device: Device, registers: RegisterVector)
  {
    && mmPA_CL_CLIP_CNTL in registers && mmPA_CL_VTE_CNTL in registers && mmPA_SU_VTX_CNTL in registers
    && mmPA_SC_MODE_CNTL_1 in registers && mmDB_SHADER_CONTROL in registers && mmVGT_REUSE_OFF in registers
    && mmCB_SHADER_MASK in registers
    && (device.chip.gfxLevel != GfxIp6 ==> HasLateAllocInputs(registers))
  }

  /** The colour inputs of a pipeline, gathered from the create info, the binary, the device and the pipeline. */
  function ColorInputsFor(device: Device, isInternal: bool, cb: ColorBlendState, pass: FixedFunctionPass,
                          cbShaderMask: bv32): ColorInputs
  {
    ColorInputs(cb.targets, cb.logicOp, cb.dualSourceBlendEnable, pass, cbShaderMask,
                device.settings.gfx8RbPlusEnable, device.chip.rbPlus, device.settings.tossPointAfterPs, isInternal)
  }

  /**
   * The context registers after SetupCommonRegisters: the clipper, vertex
   * and shader-control words straight from the binary, and PA_SC_MODE_CNTL_1,
   * DB_RENDER_OVERRIDE, VGT_TF_PARAM, VGT_LS_HS_CONFIG,
   * VGT_VERTEX_REUSE_BLOCK_CNTL and SPI_INTERP_CONTROL_0 as their own
   * functions decide; every other register as it was.
   */
  function CommonContext(ctx: ContextRegs, device: Device, rs: RasterizerState, registers: RegisterVector): ContextRegs
    requires HasSetupInputs(device, registers)
  {
    var dbShaderControl := registers[mmDB_SHADER_CONTROL];
    var tfParam := TfParam(HasEntry(registers, mmVGT_TF_PARAM, ctx.vgtTfParam), ctx.vgtShaderStagesEn,
                           device.settings.dsWavesPerSimdOverflow);
    ctx.(paClClipCntl := registers[mmPA_CL_CLIP_CNTL],
         paClVteCntl := registers[mmPA_CL_VTE_CNTL],
         paSuVtxCntl := registers[mmPA_SU_VTX_CNTL],
         paScModeCntl1 := ModeCntl1(registers[mmPA_SC_MODE_CNTL_1], rs, device.settings, device.chip.gbTileMode0),
         dbShaderControl := dbShaderControl,
         dbRenderOverride := DbRenderOverride(ctx.dbRenderOverride, dbShaderControl, rs,
                                              device.settings.depthClampBasedOnZExport, device.waDbReZStencilCorruption),
         vgtReuseOff := registers[mmVGT_REUSE_OFF],
         vgtTfParam := tfParam,
         vgtLsHsConfig := HasEntry(registers, mmVGT_LS_HS_CONFIG, ctx.vgtLsHsConfig),
         vgtVertexReuseBlockCntl := VertexReuseBlockCntl(ctx.vgtVertexReuseBlockCntl, device.chip, device.settings,
                                                         device.degeneratePrimFilter, HsEn(ctx.vgtShaderStagesEn) != 0,
                                                         tfParam),
         spiInterpControl0 := InterpControl0(HasEntry(registers, mmSPI_INTERP_CONTROL_0, ctx.spiInterpControl0), rs))
  }

  /**
   * The context registers after SetupNonShaderRegisters: PA_SC_LINE_CNTL
   * from the create info's line state, the colour registers and the RB+
   * (SX) registers as the colour setup decides from the current ones, and
   * ALPHA_TO_MASK_ENABLE as the create info asks; every other register as
   * it was.
   */
  function NonShaderContext(ctx: ContextRegs, device: Device, isInternal: bool, line: LineState,
                            cb: ColorBlendState, pass: FixedFunctionPass, registers: RegisterVector): ContextRegs
    requires mmCB_SHADER_MASK in registers
  {
    var ci := ColorInputsFor(device, isInternal, cb, pass, registers[mmCB_SHADER_MASK]);
    var color := ColorSetupFrom(ci, ColorRegs(ctx.cbColorControl, ctx.cbShaderMask,
                                              ctx.cbTargetMask),
                                SxRegs(ctx.sxPsDownconvert, ctx.sxBlendOptEpsilon, ctx.sxBlendOptControl));
    var c, sx := color.0, color.1;
    ctx.(paScLineCntl := LineCntl(ctx.paScLineCntl, line),
         cbColorControl := c.cbColorControl,
         cbShaderMask := c.cbShaderMask,
         cbTargetMask := c.cbTargetMask,
         dbAlphaToMask := SetAlphaToMaskEnable(ctx.dbAlphaToMask, Bit(cb.alphaToCoverageEnable)),
         sxPsDownconvert := sx.downconvert,
         sxBlendOptEpsilon := sx.epsilon,
         sxBlendOptControl := sx.control)
  }

  /**
   * For a new pipeline (all registers zero) of an ordinary kind, without
   * dual-source blending, colour writes end up disabled exactly when the
   * binary's shader mask is empty or no target writes a channel, and the
   * after-PS toss point of an application pipeline clears CB_TARGET_MASK.
   */
  lemma NewPipelineColorMode(device: Device, isInternal: bool, line: LineState, cb: ColorBlendState,
                             pass: FixedFunctionPass, registers: RegisterVector)
    requires mmCB_SHADER_MASK in registers
    requires !pass.IsDecompress() && !pass.resolveFixedFunc && !cb.dualSourceBlendEnable
    ensures var ctx := NonShaderContext(ZeroContextRegs, device, isInternal, line, cb, pass, registers);
            && (CbMode(ctx.cbColorControl) == CB_DISABLE <==>
                  registers[mmCB_SHADER_MASK] == 0 || TargetMask(cb.targets) == 0)
            && (!isInternal && device.settings.tossPointAfterPs ==> ctx.cbTargetMask == 0)
            && (isInternal || !device.settings.tossPointAfterPs ==> ctx.cbTargetMask == TargetMask(cb.targets))
            && AlphaToMaskEnable(ctx.dbAlphaToMask) == Bit(cb.alphaToCoverageEnable)
  {
    var ci := ColorInputsFor(device, isInternal, cb, pass, registers[mmCB_SHADER_MASK]);
    OrdinaryPipelineColorMode(ci);
  }

  /** The SH registers SetupLateAllocVs adds to the uploaded image: SPI_SHADER_LATE_ALLOC_VS on GFX7 and later. */
  function LateAllocUploadedRegs(device: Device, lateAllocVs: bv32): seq<RegValue>
  {
    if device.chip.gfxLevel != GfxIp6 then [RegValue(mmSPI_SHADER_LATE_ALLOC_VS, lateAllocVs)] else []
  }

  // ---- The pipeline ----

  class GraphicsPipeline {
    const device: Device
    const isInternal: bool
    /** The context registers of the pipeline's register image. */
    var context: ContextRegs
    /** SPI_SHADER_LATE_ALLOC_VS, the one SH register the pipeline itself owns. */
    var lateAllocVs: bv32
    /** The two copies of IA_MULTI_VGT_PARAM (the second is used when WD must switch on end of packet). */
    const iaMultiVgtParam: array<bv32>
    var signature: GraphicsPipelineSignature
    var loadPath: LoadPath
    var gsOnChip: bool

    /** The copies of IA_MULTI_VGT_PARAM exist. */
    predicate Valid()
      reads this
    {
      iaMultiVgtParam.Length == NumIaMultiVgtParam
    }

    /** A new pipeline: every register zero, the null signature, no load path. */
    constructor (device: Device, isInternal: bool)
      ensures this.device == device && this.isInternal == isInternal
      ensures context == ZeroContextRegs && lateAllocVs == 0
      ensures signature == NullGfxSignature && loadPath == NoLoadPath && !gsOnChip
      ensures Valid() && fresh(iaMultiVgtParam) && iaMultiVgtParam[..] == [0, 0]
    {
      this.device := device;
      this.isInternal := isInternal;
      context := ZeroContextRegs;
      lateAllocVs := 0;
      iaMultiVgtParam := new bv32[NumIaMultiVgtParam](_ => 0);
      signature := NullGfxSignature;
      loadPath := NoLoadPath;
      gsOnChip := false;
    }

    /** The pipeline tessellates: VGT_SHADER_STAGES_EN enables the HS. */
    predicate TessEnabled()
      reads this`context
    {
      HsEn(context.vgtShaderStagesEn) != 0
    }

    /** The pipeline has a geometry shader: VGT_SHADER_STAGES_EN enables the GS. */
    predicate GsEnabled()
      reads this`context
    {
      GsEn(context.vgtShaderStagesEn) != 0
    }

    // ---- User-data signature ----

    /**
     * One register of the stage scan: a present user-data register value is
     * classified and its effect recorded in the signature (or in the EsGs LDS
     * size register handed back); an absent one changes nothing.
     */
    method ScanUserDataRegister(registers: RegisterVector, stage: HwStage, offset: u16, ctx: ScanContext, esGs: u16)
      returns (esGsOut: u16)
      requires offset > 0 && CanRecordAt(signature.stage[stage.Index()], offset)
      modifies this`signature
      ensures ScanState(signature, esGsOut) == ScanStep(ScanState(old(signature), esGs), registers, stage, offset, ctx)
    {
      esGsOut := esGs;
      if offset !in registers {
        return;
      }
      var value := registers[offset];
      var i := stage.Index();
      match Classify(value, ctx)
      case StreamOutTableAlias =>
        if stage == Vs {
          signature := signature.(streamOutTableRegAddr := offset);
        }
      case IndirectTableAlias =>
        if stage == ctx.vbTableStage {
          signature := signature.(vertexBufTableRegAddr := offset);
        }
      case LogicalEntry(entry) =>
        signature := signature.(stage := signature.stage[i := RecordEntry(signature.stage[i], offset, entry)]);
      case SpillTableSlot =>
        signature := signature.(stage := signature.stage[i := signature.stage[i].(spillTableRegAddr := offset)]);
      case VertexBufferTableSlot =>
        signature := signature.(vertexBufTableRegAddr := offset);
      case StreamOutTableSlot =>
        signature := signature.(streamOutTableRegAddr := offset);
      case BaseVertexSlot =>
        signature := signature.(vertexOffsetRegAddr := offset);
      case BaseInstanceSlot =>
        signature := signature.(vertexOffsetRegAddr := offset - 1);
      case DrawIndexSlot =>
        signature := signature.(drawIndexRegAddr := offset);
      case EsGsLdsSizeSlot =>
        esGsOut := offset;
      case ViewIdSlot =>
        signature := signature.(viewIdRegAddr := signature.viewIdRegAddr[i := offset]);
      case _ =>
    }

    /**
     * Scans the sixteen user-data registers of one hardware stage, lowest
     * address first; the result is the stage scan of the signature.
     */
    method SetupSignatureForStageFromElf(md: PipelineMetadata, registers: RegisterVector, stage: HwStage, esGsIn: u16)
      returns (esGsOut: u16)
      requires signature.stage[stage.Index()].firstUserSgprRegAddr == UserDataNotMapped
      modifies this`signature
      ensures ScanState(signature, esGsOut) ==
                ScanStage(ScanState(old(signature), esGsIn), registers, stage,
                          StageContext(md, TessEnabled(), GsEnabled(), stage))
    {
      var ctx := StageContext(md, TessEnabled(), GsEnabled(), stage);
      var s0 := ScanState(signature, esGsIn);
      var base := BaseRegAddr(stage);
      esGsOut := esGsIn;
      var offset: u16 := base;
      while offset <= LastRegAddr(stage)
        invariant base <= offset <= LastRegAddr(stage) + 1
        invariant ScanState(signature, esGsOut) == ScanRange(s0, registers, stage, ctx, base, offset)
        decreases LastRegAddr(stage) + 1 - offset
      {
        ScanRangeNext(s0, registers, stage, ctx, base, offset);
        esGsOut := ScanUserDataRegister(registers, stage, offset, ctx, esGsOut);
        offset := offset + 1;
      }
    }

    /** Scans the LS and HS user data when the pipeline tessellates. */
    method SetupTessSignature(md: PipelineMetadata, registers: RegisterVector)
      requires signature.stage[Ls.Index()].firstUserSgprRegAddr == UserDataNotMapped
      requires signature.stage[Hs.Index()].firstUserSgprRegAddr == UserDataNotMapped
      modifies this`signature
      ensures signature == TessScan(old(signature), md, registers, TessEnabled(), GsEnabled())
    {
      if TessEnabled() {
        var _ := SetupSignatureForStageFromElf(md, registers, Ls, 0);
        var _ := SetupSignatureForStageFromElf(md, registers, Hs, 0);
      }
    }

    /** Scans the ES and GS user data when the pipeline has a GS, the GS scan given `gsIn`. */
    method SetupGsSignature(md: PipelineMetadata, registers: RegisterVector, gsIn: u16) returns (gsOut: u16)
      requires signature.stage[Es.Index()].firstUserSgprRegAddr == UserDataNotMapped
      requires signature.stage[Gs.Index()].firstUserSgprRegAddr == UserDataNotMapped
      modifies this`signature
      ensures ScanState(signature, gsOut) == GsScan(old(signature), gsIn, md, registers, TessEnabled(), GsEnabled())
    {
      gsOut := gsIn;
      if GsEnabled() {
        var _ := SetupSignatureForStageFromElf(md, registers, Es, 0);
        gsOut := SetupSignatureForStageFromElf(md, registers, Gs, gsIn);
      }
    }

    /** Scans the VS user data, given `vsIn`, and then the PS user data. */
    method SetupVsPsSignature(md: PipelineMetadata, registers: RegisterVector, vsIn: u16) returns (vsOut: u16)
      requires signature.stage[Vs.Index()].firstUserSgprRegAddr == UserDataNotMapped
      requires signature.stage[Ps.Index()].firstUserSgprRegAddr == UserDataNotMapped
      modifies this`signature
      ensures var sVs := VsScan(old(signature), vsIn, md, registers, TessEnabled(), GsEnabled());
              && vsOut == sVs.esGsLdsSizeReg
              && signature == ScanSig(sVs.sig, registers, Ps, StageContext(md, TessEnabled(), GsEnabled(), Ps))
    {
      vsOut := SetupSignatureForStageFromElf(md, registers, Vs, vsIn);
      var _ := SetupSignatureForStageFromElf(md, registers, Ps, 0);
    }

    /** Scans the active stages in hardware order, the GS and VS scans given `gsIn` and `vsIn`. */
    method SetupSignatureStages(md: PipelineMetadata, registers: RegisterVector, gsIn: u16, vsIn: u16)
      returns (gsOut: u16, vsOut: u16)
      requires Unscanned(signature)
      modifies this`signature
      ensures var tess, gs := TessEnabled(), GsEnabled();
              var sGs := GsScan(TessScan(old(signature), md, registers, tess, gs), gsIn, md, registers, tess, gs);
              var sVs := VsScan(sGs.sig, vsIn, md, registers, tess, gs);
              && gsOut == sGs.esGsLdsSizeReg && vsOut == sVs.esGsLdsSizeReg
              && signature == ScanSig(sVs.sig, registers, Ps, StageContext(md, tess, gs, Ps))
    {
      SetupTessSignature(md, registers);
      gsOut := SetupGsSignature(md, registers, gsIn);
      vsOut := SetupVsPsSignature(md, registers, vsIn);
    }

    /**
     * Resolves the whole signature: the metadata's limits, the active stages
     * in hardware order, and the view-id addresses packed.
     */
    method SetupSignatureFromElf(md: PipelineMetadata, registers: RegisterVector, gsIn: u16, vsIn: u16)
      returns (gsOut: u16, vsOut: u16)
      requires Unscanned(signature)
      modifies this`signature
      ensures SignatureResult(signature, gsOut, vsOut) ==
                ResolveSignature(md, registers, TessEnabled(), GsEnabled(), old(signature), gsIn, vsIn)
    {
      if md.spillThreshold.Some? {
        signature := signature.(spillThreshold := md.spillThreshold.value % TWO_16);
      }
      if md.userDataLimit.Some? {
        signature := signature.(userDataLimit := md.userDataLimit.value % TWO_16);
      }
      assert signature == WithLimits(old(signature), md);
      gsOut, vsOut := SetupSignatureStages(md, registers, gsIn, vsIn);
      signature := signature.(viewIdRegAddr := PackViewIds(signature.viewIdRegAddr));
    }

    /**
     * Reads the registers that decide which hardware stages are active and
     * how: VGT_SHADER_STAGES_EN, and VGT_GS_MODE and VGT_TF_PARAM when the
     * binary has them; a GS in on-chip mode marks the pipeline's GS as on chip.
     */
    method ReadStageRegisters(registers: RegisterVector)
      requires mmVGT_SHADER_STAGES_EN in registers
      modifies this`context, this`gsOnChip
      ensures context == old(context).(vgtShaderStagesEn := registers[mmVGT_SHADER_STAGES_EN],
                                       vgtGsMode := HasEntry(registers, mmVGT_GS_MODE, old(context.vgtGsMode)),
                                       vgtTfParam := HasEntry(registers, mmVGT_TF_PARAM, old(context.vgtTfParam)))
      ensures gsOnChip == (old(gsOnChip) || (GsEnabled() && GsOnchip(context.vgtGsMode) == VgtGsModeOnchip))
    {
      var ctx := context.(vgtShaderStagesEn := At(registers, mmVGT_SHADER_STAGES_EN),
                          vgtGsMode := HasEntry(registers, mmVGT_GS_MODE, context.vgtGsMode),
                          vgtTfParam := HasEntry(registers, mmVGT_TF_PARAM, context.vgtTfParam));
      context := ctx;
      if GsEn(ctx.vgtShaderStagesEn) != 0 && GsOnchip(ctx.vgtGsMode) == VgtGsModeOnchip {
        gsOnChip := true;
      }
    }

    /**
     * Tessellation runs on chip: it is enabled, and either the HS is not
     * dynamic or VGT_TF_PARAM gives the domain shader waves per SIMD.
     */
    predicate OnchipTess()
      reads this`context
    {
      TessEnabled() && (DynamicHs(context.vgtShaderStagesEn) == 0 || NumDsWavesPerSimd(context.vgtTfParam) > 0)
    }

    /**
     * Early initialization: reads the stage registers, decides whether the GS
     * runs on chip, resolves the signature, and reports the register counts
     * of the load path and which stages are in use.
     */
    method EarlyInit(md: PipelineMetadata, registers: RegisterVector, info0: LoadInfo) returns (info: LoadInfo)
      requires mmVGT_SHADER_STAGES_EN in registers
      requires Unscanned(signature)
      modifies this`context, this`gsOnChip, this`signature
      ensures context == old(context).(vgtShaderStagesEn := registers[mmVGT_SHADER_STAGES_EN],
                                       vgtGsMode := HasEntry(registers, mmVGT_GS_MODE, old(context.vgtGsMode)),
                                       vgtTfParam := HasEntry(registers, mmVGT_TF_PARAM, old(context.vgtTfParam)))
      ensures gsOnChip == (old(gsOnChip) || (GsEnabled() && GsOnchip(context.vgtGsMode) == VgtGsModeOnchip))
      ensures SignatureResult(signature, info.esGsLdsSizeRegGs, info.esGsLdsSizeRegVs) ==
                ResolveSignature(md, registers, TessEnabled(), GsEnabled(), old(signature),
                                 info0.esGsLdsSizeRegGs, info0.esGsLdsSizeRegVs)
      ensures device.settings.enableLoadIndexForObjectBinds ==>
                info.loadedShRegCount == BaseLoadedShRegCount && info.loadedCtxRegCount == BaseLoadedCntxRegCount
      ensures !device.settings.enableLoadIndexForObjectBinds ==>
                info.loadedShRegCount == info0.loadedShRegCount && info.loadedCtxRegCount == info0.loadedCtxRegCount
      ensures info.usesOnchipTess == (info0.usesOnchipTess || OnchipTess())
      ensures info.usesGs == GsEnabled() && info.usesOnChipGs == gsOnChip
    {
      ReadStageRegisters(registers);
      var gsReg, vsReg := SetupSignatureFromElf(md, registers, info0.esGsLdsSizeRegGs, info0.esGsLdsSizeRegVs);
      var shRegCount, ctxRegCount := info0.loadedShRegCount, info0.loadedCtxRegCount;
      if device.settings.enableLoadIndexForObjectBinds {
        shRegCount, ctxRegCount := BaseLoadedShRegCount, BaseLoadedCntxRegCount;
      }
      info := LoadInfo(shRegCount, ctxRegCount, info0.usesOnchipTess || OnchipTess(), GsEnabled(), gsOnChip, gsReg, vsReg);
    }


    /** The shader stages and GS mode IA_MULTI_VGT_PARAM depends on. */
    function Stages(): StageConfig
      reads this`context, this`gsOnChip
    {
      StageConfig(TessEnabled(), GsEnabled(), gsOnChip)
    }

    /**
     * Sets up both copies of IA_MULTI_VGT_PARAM from the binary's value
     * (zero when absent): the prepared value, fixed up per copy on GFX7 and
     * later.
     */
    method SetupIaMultiVgtParam(registers: RegisterVector)
      requires Valid()
      modifies iaMultiVgtParam
      ensures forall idx :: 0 <= idx < NumIaMultiVgtParam ==>
                iaMultiVgtParam[idx] ==
                  IaMultiVgtParamCopy(device, Stages(), context.vgtTfParam,
                                      BaseIaMultiVgtParam(device, Stages(), context.vgtLsHsConfig,
                                                          HasEntry(registers, mmIA_MULTI_VGT_PARAM, 0)), idx)
    {
      var cfg := Stages();
      var base := BaseIaMultiVgtParam(device, cfg, context.vgtLsHsConfig, HasEntry(registers, mmIA_MULTI_VGT_PARAM, 0));
      FillIaMultiVgtParam(cfg, context.vgtTfParam, base);
    }

    /** Stores the prepared value in every copy, fixing up each one on GFX7 and later. */
    method FillIaMultiVgtParam(cfg: StageConfig, tfParam: bv32, base: bv32)
      requires iaMultiVgtParam.Length == NumIaMultiVgtParam
      modifies iaMultiVgtParam
      ensures forall idx :: 0 <= idx < NumIaMultiVgtParam ==>
                iaMultiVgtParam[idx] == IaMultiVgtParamCopy(device, cfg, tfParam, base, idx)
    {
      for idx := 0 to NumIaMultiVgtParam
        invariant forall j :: 0 <= j < idx ==>
                    iaMultiVgtParam[j] == IaMultiVgtParamCopy(device, cfg, tfParam, base, j)
      {
        var copy := base;
        if device.chip.gfxLevel != GfxIp6 {
          copy := FixupIaMultiVgtParamOnGfx7Plus(device, cfg.gsEnabled, tfParam, idx != 0, copy);
        }
        iaMultiVgtParam[idx] := copy;
      }
    }

    /**
     * Sets the LIMIT field of SPI_SHADER_LATE_ALLOC_VS on GFX7 and later and,
     * on the load-index path, adds the register to the uploaded SH image.
     */
    method SetupLateAllocVs(registers: RegisterVector, pipelineLimit: Option<u32>, uploader: Uploader)
      requires device.chip.gfxLevel != GfxIp6 ==> HasLateAllocInputs(registers)
      modifies this`lateAllocVs, uploader`shRegs
      ensures lateAllocVs == LateAllocVsValue(device, pipelineLimit, registers, old(lateAllocVs))
      ensures uploader.shRegs ==
                old(uploader.shRegs) + (if uploader.enableLoadIndexPath then LateAllocUploadedRegs(device, lateAllocVs) else [])
    {
      if device.chip.gfxLevel != GfxIp6 {
        lateAllocVs := LateAllocVsValue(device, pipelineLimit, registers, lateAllocVs);
        if uploader.enableLoadIndexPath {
          uploader.AddShReg(mmSPI_SHADER_LATE_ALLOC_VS, lateAllocVs);
        }
      }
    }

    /**
     * On the load-index path, adds the registers SetupCommonRegisters owns to
     * the uploaded context image, in the source's order.
     */
    method UploadCommonRegisters(uploader: Uploader)
      modifies uploader`ctxRegs
      ensures uploader.ctxRegs ==
                old(uploader.ctxRegs) + (if uploader.enableLoadIndexPath then CommonUploadedRegs(context) else [])
    {
      if uploader.enableLoadIndexPath {
        var ctx := context;
        uploader.AddCtxReg(mmPA_CL_CLIP_CNTL, ctx.paClClipCntl);
        uploader.AddCtxReg(mmPA_CL_VTE_CNTL, ctx.paClVteCntl);
        uploader.AddCtxReg(mmPA_SU_VTX_CNTL, ctx.paSuVtxCntl);
        uploader.AddCtxReg(mmDB_SHADER_CONTROL, ctx.dbShaderControl);
        uploader.AddCtxReg(mmVGT_SHADER_STAGES_EN, ctx.vgtShaderStagesEn);
        uploader.AddCtxReg(mmVGT_GS_MODE, ctx.vgtGsMode);
        uploader.AddCtxReg(mmVGT_REUSE_OFF, ctx.vgtReuseOff);
        uploader.AddCtxReg(mmVGT_TF_PARAM, ctx.vgtTfParam);
        uploader.AddCtxReg(mmVGT_VERTEX_REUSE_BLOCK_CNTL, ctx.vgtVertexReuseBlockCntl);
        uploader.AddCtxReg(mmSPI_INTERP_CONTROL_0, ctx.spiInterpControl0);
        AppendedOneByOne(old(uploader.ctxRegs), CommonUploadedRegs(ctx));
      }
    }

    /**
     * Sets up the render-state registers the pipeline derives from the
     * binary, the create info, the chip and the settings, and reports
     * whether the pixel shader runs per sample.
     */
    method SetupCommonContext(rs: RasterizerState, registers: RegisterVector) returns (perSampleShading: bool)
      requires HasSetupInputs(device, registers)
      modifies this`context
      ensures context == CommonContext(old(context), device, rs, registers)
      ensures perSampleShading == (PsIterSample(context.paScModeCntl1) != 0)
    {
      var ctx := context;
      var modeCntl1 := ModeCntl1(At(registers, mmPA_SC_MODE_CNTL_1), rs, device.settings, device.chip.gbTileMode0);
      perSampleShading := PsIterSample(modeCntl1) != 0;
      var dbShaderControl := At(registers, mmDB_SHADER_CONTROL);
      var tfParam := TfParam(HasEntry(registers, mmVGT_TF_PARAM, ctx.vgtTfParam), ctx.vgtShaderStagesEn,
                             device.settings.dsWavesPerSimdOverflow);
      ctx := ctx.(paClClipCntl := At(registers, mmPA_CL_CLIP_CNTL),
                  paClVteCntl := At(registers, mmPA_CL_VTE_CNTL),
                  paSuVtxCntl := At(registers, mmPA_SU_VTX_CNTL),
                  paScModeCntl1 := modeCntl1,
                  dbShaderControl := dbShaderControl,
                  dbRenderOverride := DbRenderOverride(ctx.dbRenderOverride, dbShaderControl, rs,
                                                       device.settings.depthClampBasedOnZExport,
                                                       device.waDbReZStencilCorruption),
                  vgtReuseOff := At(registers, mmVGT_REUSE_OFF),
                  vgtTfParam := tfParam,
                  vgtLsHsConfig := HasEntry(registers, mmVGT_LS_HS_CONFIG, ctx.vgtLsHsConfig),
                  vgtVertexReuseBlockCntl := VertexReuseBlockCntl(ctx.vgtVertexReuseBlockCntl, device.chip,
                                                                  device.settings, device.degeneratePrimFilter,
                                                                  HsEn(ctx.vgtShaderStagesEn) != 0, tfParam),
                  spiInterpControl0 := InterpControl0(HasEntry(registers, mmSPI_INTERP_CONTROL_0, ctx.spiInterpControl0),
                                                      rs));
      context := ctx;
    }

    /** CB_TARGET_MASK with each target's four low write-mask bits or-ed into its slot, target by target. */
    static method AccumulateTargetMask(start: bv32, targets: Targets) returns (mask: bv32)
      ensures mask == start | TargetMask(targets)
    {
      mask := start;
      var rt: bv32 := 0;
      while rt < 8
        invariant rt <= 8
        invariant mask == start | TargetMaskWord(targets, rt)
      {
        mask := mask | ((targets[rt].channelWriteMask as bv32 & 0xF) << (rt << 2));
        rt := rt + 1;
      }
      TargetMaskIsWord(targets);
    }

    /** The RB+ registers after setting up every render-target slot in order. */
    static method SetupRbPlusSlots(sx0: SxRegs, targets: Targets) returns (sx: SxRegs)
      ensures sx == RbPlusSlots(sx0, targets, 8)
    {
      sx := sx0;
      var slot: bv32 := 0;
      while slot < 8
        invariant slot <= 8
        invariant sx == RbPlusSlots(sx0, targets, slot)
      {
        sx := SetupRbPlusRegistersForSlot(sx, slot, targets[slot].channelWriteMask, targets[slot].format);
        slot := slot + 1;
      }
    }

    /**
     * The colour mode: a fixed-function pass programs its own mode, ROP3
     * copy and masks; otherwise the pipeline is disabled when either mask is
     * empty and is a normal one using its logic op when not.
     */
    static method SelectColorMode(r: ColorRegs, pass: FixedFunctionPass, logicOp: LogicOp) returns (o: ColorRegs)
      ensures o == ColorModeStep(r, pass, logicOp)
    {
      o := r;
      if pass.fastClearEliminate {
        o := ColorRegs(SetModeAndRop3(r.cbColorControl, CB_ELIMINATE_FAST_CLEAR, Rop3(Copy)), 0xF, 0xF);
      } else if pass.fmaskDecompress {
        o := ColorRegs(SetModeAndRop3(r.cbColorControl, CB_FMASK_DECOMPRESS, Rop3(Copy)), 0xF, 0xF);
      } else if pass.dccDecompress {
        o := ColorRegs(SetModeAndRop3(r.cbColorControl, CB_DCC_DECOMPRESS, Rop3(Copy)), 0xF, 0xF);
      } else if pass.resolveFixedFunc {
        o := ColorRegs(SetModeAndRop3(r.cbColorControl, CB_RESOLVE, Rop3(Copy)),
                       SetNibble(r.cbShaderMask, 0, 0xF), SetNibble(r.cbTargetMask, 0, 0xF));
      } else if r.cbShaderMask == 0 || r.cbTargetMask == 0 {
        o := r.(cbColorControl := SetCbMode(r.cbColorControl, CB_DISABLE));
      } else {
        o := r.(cbColorControl := SetModeAndRop3(r.cbColorControl, CB_NORMAL, Rop3(logicOp)));
      }
    }

    /**
     * RB+: a pipeline that can use it clears DISABLE_DUAL_QUAD and sets up
     * every slot's SX registers; on an RB+ chip where it is not used,
     * DISABLE_DUAL_QUAD is set.
     */
    static method SetupRbPlus(cc: bv32, sx0: SxRegs, rbPlusEnable: bool, chipRbPlus: bool, dualSourceBlendEnable: bool,
                              targets: Targets) returns (colorControl: bv32, sx: SxRegs)
      ensures (colorControl, sx) == RbPlusStep(cc, sx0, rbPlusEnable, chipRbPlus, dualSourceBlendEnable, targets)
    {
      colorControl, sx := cc, sx0;
      if rbPlusEnable && !dualSourceBlendEnable && CbMode(cc) != CB_RESOLVE {
        colorControl := SetDisableDualQuad(cc, 0);
        sx := SetupRbPlusSlots(sx0, targets);
      } else if chipRbPlus {
        colorControl := SetDisableDualQuad(cc, 1);
      }
    }

    /**
     * The colour part of the non-shader setup: CB_TARGET_MASK from the
     * targets, the colour mode, the dual-source guard, RB+ and the after-PS
     * toss point, starting from the registers in `start` and `sx0`.
     */
    static method SetupColorRegisters(ci: ColorInputs, start: ColorRegs, sx0: SxRegs) returns (color: ColorRegs, sx: SxRegs)
      ensures (color, sx) == ColorSetupFrom(ci, start, sx0)
    {
      var targetMask := AccumulateTargetMask(start.cbTargetMask, ci.targets);
      var moded := SelectColorMode(ColorRegs(start.cbColorControl, ci.shaderMaskFromBinary, targetMask),
                                   ci.pass, ci.logicOp);
      var guarded := DualSourceGuard(moded.cbColorControl, moded.cbShaderMask, ci.dualSourceBlendEnable);
      var colorControl;
      colorControl, sx := SetupRbPlus(guarded, sx0, ci.rbPlusEnable, ci.chipRbPlus, ci.dualSourceBlendEnable,
                                      ci.targets);
      targetMask := moded.cbTargetMask;
      if !ci.isInternal && ci.tossPointAfterPs {
        targetMask := 0;
      }
      color := ColorRegs(colorControl, moded.cbShaderMask, targetMask);
    }

    /**
     * The render-state registers that belong to no shader stage: line
     * rasterization, the colour-buffer masks and mode, alpha-to-mask and
     * the RB+ registers.
     */
    method SetupNonShaderContext(line: LineState, cb: ColorBlendState, pass: FixedFunctionPass,
                                 registers: RegisterVector)
      requires mmCB_SHADER_MASK in registers
      modifies this`context
      ensures context == NonShaderContext(old(context), device, isInternal, line, cb, pass, registers)
    {
      var ctx := context;
      var color, sx := SetupColorRegisters(ColorInputsFor(device, isInternal, cb, pass, At(registers, mmCB_SHADER_MASK)),
                                           ColorRegs(ctx.cbColorControl, ctx.cbShaderMask, ctx.cbTargetMask),
                                           SxRegs(ctx.sxPsDownconvert, ctx.sxBlendOptEpsilon, ctx.sxBlendOptControl));
      context := ctx.(paScLineCntl := LineCntl(ctx.paScLineCntl, line),
                      cbColorControl := color.cbColorControl,
                      cbShaderMask := color.cbShaderMask,
                      cbTargetMask := color.cbTargetMask,
                      dbAlphaToMask := SetAlphaToMaskEnable(ctx.dbAlphaToMask, Bit(cb.alphaToCoverageEnable)),
                      sxPsDownconvert := sx.downconvert,
                      sxBlendOptEpsilon := sx.epsilon,
                      sxBlendOptControl := sx.control);
    }

    /**
     * On the load-index path, adds the registers SetupNonShaderRegisters
     * owns to the uploaded context image, in the source's order.
     */
    method UploadNonShaderRegisters(uploader: Uploader)
      modifies uploader`ctxRegs
      ensures uploader.ctxRegs ==
                old(uploader.ctxRegs) + (if uploader.enableLoadIndexPath then NonShaderUploadedRegs(context) else [])
    {
      if uploader.enableLoadIndexPath {
        var ctx := context;
        uploader.AddCtxReg(mmPA_SC_LINE_CNTL, ctx.paScLineCntl);
        uploader.AddCtxReg(mmCB_COLOR_CONTROL, ctx.cbColorControl);
        uploader.AddCtxReg(mmCB_SHADER_MASK, ctx.cbShaderMask);
        uploader.AddCtxReg(mmCB_TARGET_MASK, ctx.cbTargetMask);
      }
    }

    /**
     * SetupNonShaderRegisters: the render-state registers of no shader
     * stage, then, on the load-index path, four of them added to the
     * uploaded image.
     */
    method SetupNonShaderRegisters(line: LineState, cb: ColorBlendState, pass: FixedFunctionPass,
                                   registers: RegisterVector, uploader: Uploader)
      requires mmCB_SHADER_MASK in registers
      modifies this`context, uploader`ctxRegs
      ensures context == NonShaderContext(old(context), device, isInternal, line, cb, pass, registers)
      ensures uploader.ctxRegs ==
                old(uploader.ctxRegs) + (if uploader.enableLoadIndexPath then NonShaderUploadedRegs(context) else [])
    {
      SetupNonShaderContext(line, cb, pass, registers);
      UploadNonShaderRegisters(uploader);
    }

    /**
     * SetupCommonRegisters: the render-state registers, then, on the
     * load-index path, those registers added to the uploaded image; then
     * late-alloc VS and IA_MULTI_VGT_PARAM.
     */
    method SetupCommonRegisters(rs: RasterizerState, registers: RegisterVector, pipelineLimit: Option<u32>,
                                uploader: Uploader) returns (perSampleShading: bool)
      requires Valid() && HasSetupInputs(device, registers)
      modifies this`context, this`lateAllocVs, iaMultiVgtParam, uploader`ctxRegs, uploader`shRegs
      ensures context == CommonContext(old(context), device, rs, registers)
      ensures perSampleShading == (PsIterSample(context.paScModeCntl1) != 0)
      ensures lateAllocVs == LateAllocVsValue(device, pipelineLimit, registers, old(lateAllocVs))
      ensures forall idx :: 0 <= idx < NumIaMultiVgtParam ==>
                iaMultiVgtParam[idx] ==
                  IaMultiVgtParamCopy(device, Stages(), context.vgtTfParam,
                                      BaseIaMultiVgtParam(device, Stages(), context.vgtLsHsConfig,
                                                          HasEntry(registers, mmIA_MULTI_VGT_PARAM, 0)), idx)
      ensures uploader.ctxRegs ==
                old(uploader.ctxRegs) + (if uploader.enableLoadIndexPath then CommonUploadedRegs(context) else [])
      ensures uploader.shRegs ==
                old(uploader.shRegs) + (if uploader.enableLoadIndexPath then LateAllocUploadedRegs(device, lateAllocVs) else [])
    {
      perSampleShading := SetupCommonContext(rs, registers);
      UploadCommonRegisters(uploader);
      SetupLateAllocVs(registers, pipelineLimit, uploader);
      SetupIaMultiVgtParam(registers);
    }


    // ---- Bind-time and draw-time commands ----

    /**
     * WriteContextCommandsSetPath: every pipeline-owned context register
     * written from the image, the two CB masks as one sequence, and
     * DB_SHADER_CONTROL unless the over-rasterization workaround defers it
     * to draw time.
     */
    method WriteContextCommandsSetPath(stream: CmdStream)
      modifies stream`commands
      ensures stream.commands == old(stream.commands) + ContextCommandsSetPath(context, device.waDbOverRasterization)
    {
      WriteSetPathImageRegs(stream);
      if !device.waDbOverRasterization {
        stream.Write(SetReg(ContextSpace, mmDB_SHADER_CONTROL, context.dbShaderControl));
      }
    }

    /** The part of the set path written on every part, register by register. */
    method WriteSetPathImageRegs(stream: CmdStream)
      modifies stream`commands
      ensures stream.commands == old(stream.commands) + SetPathImageRegs(context)
    {
      var ctx := context;
      stream.Write(SetReg(ContextSpace, mmVGT_SHADER_STAGES_EN, ctx.vgtShaderStagesEn));
      stream.Write(SetReg(ContextSpace, mmVGT_GS_MODE, ctx.vgtGsMode));
      stream.Write(SetReg(ContextSpace, mmVGT_REUSE_OFF, ctx.vgtReuseOff));
      stream.Write(SetReg(ContextSpace, mmVGT_TF_PARAM, ctx.vgtTfParam));
      stream.Write(SetReg(ContextSpace, mmCB_COLOR_CONTROL, ctx.cbColorControl));
      stream.Write(SetSeq(ContextSpace, mmCB_TARGET_MASK, [ctx.cbTargetMask, ctx.cbShaderMask]));
      stream.Write(SetReg(ContextSpace, mmPA_CL_CLIP_CNTL, ctx.paClClipCntl));
      stream.Write(SetReg(ContextSpace, mmPA_SU_VTX_CNTL, ctx.paSuVtxCntl));
      stream.Write(SetReg(ContextSpace, mmPA_CL_VTE_CNTL, ctx.paClVteCntl));
      stream.Write(SetReg(ContextSpace, mmPA_SC_LINE_CNTL, ctx.paScLineCntl));
      stream.Write(SetReg(ContextSpace, mmSPI_INTERP_CONTROL_0, ctx.spiInterpControl0));
      stream.Write(SetReg(ContextSpace, mmVGT_VERTEX_REUSE_BLOCK_CNTL, ctx.vgtVertexReuseBlockCntl));
      WrittenOneByOne(old(stream.commands), SetPathImageRegs(ctx));
    }

    /**
     * WriteContextCommands: one load of the uploaded context image when the
     * load path is in use, otherwise the set path and the chunks' context
     * commands; then the two read-modify-writes.
     */
    method WriteContextCommands(stream: CmdStream)
      modifies stream`commands
      ensures stream.commands == old(stream.commands) +
                ContextCommands(context, device, loadPath, stream.pm4OptimizerEnabled, TessEnabled(), GsEnabled())
    {
      WriteContextImage(stream);
      var ctx := context;
      stream.Write(Rmw(mmDB_ALPHA_TO_MASK, ALPHA_TO_MASK_ENABLE_MASK, ctx.dbAlphaToMask));
      stream.Write(Rmw(mmDB_RENDER_OVERRIDE, DbRenderOverrideRmwMask, ctx.dbRenderOverride));
    }

    /** The load of the uploaded context image, or the set path and the chunks' context commands. */
    method WriteContextImage(stream: CmdStream)
      modifies stream`commands
      ensures stream.commands == old(stream.commands) +
                ContextImageCommands(context, device, loadPath, stream.pm4OptimizerEnabled, TessEnabled(), GsEnabled())
    {
      if loadPath.countCtx == 0 || stream.pm4OptimizerEnabled {
        WriteContextCommandsSetPath(stream);
        WriteChunkContextCommands(stream);
      } else {
        stream.Write(LoadIndex(ContextSpace, loadPath.gpuVirtAddrCtx, loadPath.countCtx));
      }
    }

    /** The context commands of the chunks the pipeline has; what each chunk writes is not modelled. */
    method WriteChunkContextCommands(stream: CmdStream)
      modifies stream`commands
      ensures stream.commands == old(stream.commands) + ChunkContextCommands(TessEnabled(), GsEnabled())
    {
      if TessEnabled() {
        stream.Write(ChunkContext(ChunkLsHs));
      }
      if GsEnabled() {
        stream.Write(ChunkContext(ChunkEsGs));
      }
      stream.Write(ChunkContext(ChunkVsPs));
    }

    /**
     * WriteShCommands: the dynamic stage infos, then either the late-alloc
     * register (GFX7 and later) and the chunks' full SH commands, or one
     * load of the uploaded SH image and the chunks' dynamic state only.
     */
    method WriteShCommands(stream: CmdStream, graphicsInfo: DynamicGraphicsShaderInfos)
      modifies stream`commands
      ensures stream.commands == old(stream.commands) +
                ShCommands(device.chip, lateAllocVs, loadPath, stream.pm4OptimizerEnabled, graphicsInfo,
                           TessEnabled(), GsEnabled())
    {
      var infos := BindStageInfos(device.chip, graphicsInfo, TessEnabled(), GsEnabled());
      WriteShCommandsFor(stream, infos);
    }

    /** The SH commands given the dynamic stage infos. */
    method WriteShCommandsFor(stream: CmdStream, infos: DynamicStageInfos)
      modifies stream`commands
      ensures stream.commands == old(stream.commands) +
                ShCommandsFor(device.chip, lateAllocVs, loadPath, stream.pm4OptimizerEnabled, infos,
                              TessEnabled(), GsEnabled())
    {
      var useLoad := !(loadPath.countSh == 0 || stream.pm4OptimizerEnabled);
      if !useLoad {
        if device.chip.gfxLevel.AtLeast(GfxIp7) {
          stream.Write(SetReg(ShSpace, mmSPI_SHADER_LATE_ALLOC_VS, lateAllocVs));
        }
      } else {
        stream.Write(LoadIndex(ShSpace, loadPath.gpuVirtAddrSh, loadPath.countSh));
      }
      WriteChunkShCommands(stream, infos, useLoad);
    }

    /**
     * The SH commands of the chunks the pipeline has, each given the infos of
     * its two hardware stages; what each chunk writes is not modelled.
     */
    method WriteChunkShCommands(stream: CmdStream, infos: DynamicStageInfos, loadPath: bool)
      modifies stream`commands
      ensures stream.commands == old(stream.commands) + ChunkShCommands(infos, loadPath, TessEnabled(), GsEnabled())
    {
      if TessEnabled() {
        stream.Write(ChunkSh(ChunkLsHs, loadPath, infos[Ls.Index()], infos[Hs.Index()]));
      }
      if GsEnabled() {
        stream.Write(ChunkSh(ChunkEsGs, loadPath, infos[Es.Index()], infos[Gs.Index()]));
      }
      stream.Write(ChunkSh(ChunkVsPs, loadPath, infos[Vs.Index()], infos[Ps.Index()]));
    }

    /**
     * WriteDbShaderControl: under the over-rasterization workaround, the
     * draw-time write of DB_SHADER_CONTROL, with early Z forced to late Z
     * when depth testing and over-rasterization are both on.
     */
    method WriteDbShaderControl(isDepthEnabled: bool, usesOverRasterization: bool, stream: CmdStream)
      modifies stream`commands
      ensures stream.commands == old(stream.commands) +
                DbShaderControlCommands(device, context.dbShaderControl, isDepthEnabled, usesOverRasterization)
    {
      if device.waDbOverRasterization {
        var dbShaderControl := context.dbShaderControl;
        if ZOrder(dbShaderControl) == EARLY_Z_THEN_LATE_Z && usesOverRasterization && isDepthEnabled {
          dbShaderControl := SetZOrder(dbShaderControl, LATE_Z);
        }
        stream.Write(SetReg(ContextSpace, mmDB_SHADER_CONTROL, dbShaderControl));
      }
    }


    // ---- Creation ----

    /** On the load-index path, the uploader's two images become the pipeline's load path. */
    method RecordLoadPath(uploader: Uploader)
      modifies this`loadPath
      ensures loadPath == if uploader.enableLoadIndexPath
                          then LoadPath(uploader.ctxRegGpuVirtAddr, uploader.ctxRegCount,
                                        uploader.shRegGpuVirtAddr, uploader.shRegCount)
                          else old(loadPath)
    {
      if uploader.enableLoadIndexPath {
        loadPath := LoadPath(uploader.ctxRegGpuVirtAddr, uploader.ctxRegCount,
                             uploader.shRegGpuVirtAddr, uploader.shRegCount);
      }
    }

  }
}
