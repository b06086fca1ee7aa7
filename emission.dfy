// What a graphics pipeline writes into a command stream when it is bound
// (GraphicsPipeline::WriteShCommands, WriteContextCommands,
// WriteContextCommandsSetPath) and at draw time (WriteDbShaderControl).
// Commands are abstract: a register write, a load of a register range from
// GPU memory, a read-modify-write, or the opaque output of one of the
// pipeline's per-stage chunks.
module Emission {
  import opened Common
  import opened Registers
  import opened RegisterImage
  import opened Signature
  import opened Device
  import opened WaveBudget
  import opened CommonRegisters

  /** The two register spaces a graphics pipeline programs. */
  datatype RegSpace = ShSpace | ContextSpace

  /** The per-stage register chunks of a pipeline. */
  datatype Chunk = ChunkLsHs | ChunkEsGs | ChunkVsPs

  datatype Command =
    | SetReg(space: RegSpace, addr: u16, value: bv32)
      /** Consecutive registers from `first` set to `values`. */
    | SetSeq(space: RegSpace, first: u16, values: seq<bv32>)
      /** `count` registers loaded from the image uploaded at `gpuVirtAddr`. */
    | LoadIndex(space: RegSpace, gpuVirtAddr: nat, count: nat)
      /** Context register `addr` read, the bits of `mask` replaced by those of `value`, and written back. */
    | Rmw(addr: u16, mask: bv32, value: bv32)
      /** A chunk's SH commands: only its dynamic state when the load path is in use. */
    | ChunkSh(chunk: Chunk, loadPath: bool, firstStage: DynamicStageInfo, secondStage: DynamicStageInfo)
      /** A chunk's context commands on the set path. */
    | ChunkContext(chunk: Chunk)

  /** Where the uploaded register images live and how many registers each holds (0: none uploaded). */
  datatype LoadPath = LoadPath(gpuVirtAddrCtx: nat, countCtx: u32, gpuVirtAddrSh: nat, countSh: u32)

  /** No uploaded images: the set path is always taken. */
  const NoLoadPath := LoadPath(0, 0, 0, 0)

  /**
   * The load path is used when there is an uploaded image and the PM4
   * optimizer is off (it cannot look into register values held in memory).
   */
  predicate UsesLoadPath(count: u32, pm4OptimizerEnabled: bool)
  {
    count != 0 && !pm4OptimizerEnabled
  }

  // ---- Context commands ----

  /** Context registers loaded by the pipeline's own part of the uploaded image. */
  const BaseLoadedContextRegs: set<u16> := {
    mmVGT_SHADER_STAGES_EN, mmVGT_GS_MODE, mmVGT_REUSE_OFF, mmVGT_TF_PARAM, mmCB_COLOR_CONTROL,
    mmCB_TARGET_MASK, mmCB_SHADER_MASK, mmPA_CL_CLIP_CNTL, mmPA_SU_VTX_CNTL, mmPA_CL_VTE_CNTL,
    mmPA_SC_LINE_CNTL, mmSPI_INTERP_CONTROL_0, mmVGT_VERTEX_REUSE_BLOCK_CNTL, mmDB_SHADER_CONTROL }

  /** The count of those registers the uploader is told about. */
  const BaseLoadedCntxRegCount: nat := 14

  /** SH registers loaded by the pipeline's own part of the uploaded image: the late-alloc VS register. */
  const BaseLoadedShRegCount: nat := 1

  /** The 14 registers are distinct, so the declared count is exact. */
  lemma BaseLoadedContextRegsCounted()
    ensures |BaseLoadedContextRegs| == BaseLoadedCntxRegCount
  {
  }

  /**
   * The set path: every pipeline-owned context register written from the
   * image, the two CB masks as one sequence, and DB_SHADER_CONTROL only when
   * the over-rasterization workaround does not defer it to draw time.
   */
  function ContextCommandsSetPath(ctx: ContextRegs, waDbOverRasterization: bool): seq<Command>
  {
    SetPathImageRegs(ctx)
    + (if waDbOverRasterization then [] else [SetReg(ContextSpace, mmDB_SHADER_CONTROL, ctx.dbShaderControl)])
  }

  /** The part of the set path written on every part. */
  function SetPathImageRegs(ctx: ContextRegs): seq<Command>
  {
    [ SetReg(ContextSpace, mmVGT_SHADER_STAGES_EN, ctx.vgtShaderStagesEn),
      SetReg(ContextSpace, mmVGT_GS_MODE, ctx.vgtGsMode),
      SetReg(ContextSpace, mmVGT_REUSE_OFF, ctx.vgtReuseOff),
      SetReg(ContextSpace, mmVGT_TF_PARAM, ctx.vgtTfParam),
      SetReg(ContextSpace, mmCB_COLOR_CONTROL, ctx.cbColorControl),
      SetSeq(ContextSpace, mmCB_TARGET_MASK, [ctx.cbTargetMask, ctx.cbShaderMask]),
      SetReg(ContextSpace, mmPA_CL_CLIP_CNTL, ctx.paClClipCntl),
      SetReg(ContextSpace, mmPA_SU_VTX_CNTL, ctx.paSuVtxCntl),
      SetReg(ContextSpace, mmPA_CL_VTE_CNTL, ctx.paClVteCntl),
      SetReg(ContextSpace, mmPA_SC_LINE_CNTL, ctx.paScLineCntl),
      SetReg(ContextSpace, mmSPI_INTERP_CONTROL_0, ctx.spiInterpControl0),
      SetReg(ContextSpace, mmVGT_VERTEX_REUSE_BLOCK_CNTL, ctx.vgtVertexReuseBlockCntl) ]
  }

  /** The context commands of the chunks the pipeline has: LS/HS with tessellation, ES/GS with a GS, VS/PS always. */
  function ChunkContextCommands(tessEnabled: bool, gsEnabled: bool): seq<Command>
  {
    (if tessEnabled then [ChunkContext(ChunkLsHs)] else []) +
    (if gsEnabled then [ChunkContext(ChunkEsGs)] else []) +
    [ChunkContext(ChunkVsPs)]
  }

  /**
   * WriteContextCommands: the pipeline's image part, then, on either path,
   * the two read-modify-writes of the bits the pipeline shares with other
   * state.
   */
  function ContextCommands(ctx: ContextRegs, device: Device, loadPath: LoadPath, pm4OptimizerEnabled: bool,
                           tessEnabled: bool, gsEnabled: bool): seq<Command>
  {
    ContextImageCommands(ctx, device, loadPath, pm4OptimizerEnabled, tessEnabled, gsEnabled) + ContextRmws(ctx)
  }

  /** One load of the whole uploaded context image, or the set path followed by the chunks' context commands. */
  function ContextImageCommands(ctx: ContextRegs, device: Device, loadPath: LoadPath, pm4OptimizerEnabled: bool,
                                tessEnabled: bool, gsEnabled: bool): seq<Command>
  {
    if UsesLoadPath(loadPath.countCtx, pm4OptimizerEnabled)
    then [LoadIndex(ContextSpace, loadPath.gpuVirtAddrCtx, loadPath.countCtx)]
    else ContextCommandsSetPath(ctx, device.waDbOverRasterization) + ChunkContextCommands(tessEnabled, gsEnabled)
  }

  /** The read-modify-writes of DB_ALPHA_TO_MASK's enable bit and of the pipeline's DB_RENDER_OVERRIDE fields. */
  function ContextRmws(ctx: ContextRegs): seq<Command>
  {
    [ Rmw(mmDB_ALPHA_TO_MASK, ALPHA_TO_MASK_ENABLE_MASK, ctx.dbAlphaToMask),
      Rmw(mmDB_RENDER_OVERRIDE, DbRenderOverrideRmwMask, ctx.dbRenderOverride) ]
  }

  /** Whether a command writes register `addr` of `space`. */
  predicate WritesTo(c: Command, space: RegSpace, addr: u16)
  {
    match c
    case SetReg(s, a, _) => s == space && a == addr
    case SetSeq(s, first, values) => s == space && first <= addr < first + |values|
    case Rmw(a, _, _) => space == ContextSpace && a == addr
    case _ => false
  }

  /** Whether a command loads registers from memory. */
  predicate IsLoad(c: Command) { c.LoadIndex? }

  /**
   * A load is emitted exactly when the load path is used; it is then the
   * only command before the two read-modify-writes, and otherwise there is
   * no load at all.
   */
  lemma ContextCommandsLoadPath(ctx: ContextRegs, device: Device, loadPath: LoadPath, opt: bool, tess: bool, gs: bool)
    ensures var cmds := ContextCommands(ctx, device, loadPath, opt, tess, gs);
            && (UsesLoadPath(loadPath.countCtx, opt) ==>
                  |cmds| == 3 && cmds[0] == LoadIndex(ContextSpace, loadPath.gpuVirtAddrCtx, loadPath.countCtx))
            && (!UsesLoadPath(loadPath.countCtx, opt) ==> forall i :: 0 <= i < |cmds| ==> !IsLoad(cmds[i]))
  {
    var image := ContextImageCommands(ctx, device, loadPath, opt, tess, gs);
    var cmds := ContextCommands(ctx, device, loadPath, opt, tess, gs);
    if !UsesLoadPath(loadPath.countCtx, opt) {
      var setPath := ContextCommandsSetPath(ctx, device.waDbOverRasterization);
      var chunks := ChunkContextCommands(tess, gs);
      assert image == setPath + chunks;
      forall i | 0 <= i < |cmds| ensures !IsLoad(cmds[i]) {
        if i < |setPath| {
          assert cmds[i] == setPath[i];
        } else if i < |image| {
          assert cmds[i] == chunks[i - |setPath|];
        } else {
          assert cmds[i] == ContextRmws(ctx)[i - |image|];
        }
      }
    }
  }

  /**
   * On both paths the last two commands are the read-modify-writes of
   * DB_ALPHA_TO_MASK's enable bit and of the pipeline's DB_RENDER_OVERRIDE
   * fields.
   */
  lemma ContextCommandsEndWithRmws(ctx: ContextRegs, device: Device, loadPath: LoadPath, opt: bool, tess: bool, gs: bool)
    ensures var cmds := ContextCommands(ctx, device, loadPath, opt, tess, gs);
            && |cmds| >= 3
            && cmds[|cmds| - 2] == Rmw(mmDB_ALPHA_TO_MASK, ALPHA_TO_MASK_ENABLE_MASK, ctx.dbAlphaToMask)
            && cmds[|cmds| - 1] == Rmw(mmDB_RENDER_OVERRIDE, DbRenderOverrideRmwMask, ctx.dbRenderOverride)
  {
  }

  /**
   * Every register the uploaded image counts is written by the set path,
   * except DB_SHADER_CONTROL when the over-rasterization workaround writes
   * it at draw time.
   */
  lemma SetPathWritesBaseLoadedRegs(ctx: ContextRegs, wa: bool, addr: u16)
    requires addr in BaseLoadedContextRegs && !(wa && addr == mmDB_SHADER_CONTROL)
    ensures var cmds := ContextCommandsSetPath(ctx, wa);
            exists i :: 0 <= i < |cmds| && WritesTo(cmds[i], ContextSpace, addr)
  {
    var cmds := ContextCommandsSetPath(ctx, wa);
    if addr == mmDB_SHADER_CONTROL {
      assert WritesTo(cmds[12], ContextSpace, addr);
    } else {
      var k := ImageRegSlot(ctx, addr);
      assert cmds[k] == SetPathImageRegs(ctx)[k];
    }
  }

  /** Where a counted register other than DB_SHADER_CONTROL is written in the common part of the set path. */
  function ImageRegSlot(ctx: ContextRegs, addr: u16): (k: nat)
    requires addr in BaseLoadedContextRegs && addr != mmDB_SHADER_CONTROL
    ensures k < 12 && WritesTo(SetPathImageRegs(ctx)[k], ContextSpace, addr)
  {
    if addr == mmVGT_SHADER_STAGES_EN then 0 else if addr == mmVGT_GS_MODE then 1
    else if addr == mmVGT_REUSE_OFF then 2 else if addr == mmVGT_TF_PARAM then 3
    else if addr == mmCB_COLOR_CONTROL then 4 else if addr == mmCB_TARGET_MASK || addr == mmCB_SHADER_MASK then 5
    else if addr == mmPA_CL_CLIP_CNTL then 6 else if addr == mmPA_SU_VTX_CNTL then 7
    else if addr == mmPA_CL_VTE_CNTL then 8 else if addr == mmPA_SC_LINE_CNTL then 9
    else if addr == mmSPI_INTERP_CONTROL_0 then 10 else 11
  }

  /** The set path writes no register outside the counted ones, and never DB_SHADER_CONTROL under the workaround. */
  lemma SetPathWritesOnlyBaseLoadedRegs(ctx: ContextRegs, wa: bool, addr: u16, i: nat)
    requires i < |ContextCommandsSetPath(ctx, wa)|
    requires WritesTo(ContextCommandsSetPath(ctx, wa)[i], ContextSpace, addr)
    ensures addr in BaseLoadedContextRegs && !(wa && addr == mmDB_SHADER_CONTROL)
  {
  }

  /** No register is written twice by the set path. */
  lemma SetPathWritesEachRegOnce(ctx: ContextRegs, wa: bool, addr: u16, i: nat, j: nat)
    requires i < j < |ContextCommandsSetPath(ctx, wa)|
    requires WritesTo(ContextCommandsSetPath(ctx, wa)[i], ContextSpace, addr)
    ensures !WritesTo(ContextCommandsSetPath(ctx, wa)[j], ContextSpace, addr)
  {
  }

  // ---- Draw-time DB_SHADER_CONTROL ----

  /**
   * DB_SHADER_CONTROL as written at draw time: an early-then-late Z order
   * is forced to late Z when depth testing and over-rasterization are both
   * on.
   */
  function DbShaderControlForDraw(dbShaderControl: bv32, isDepthEnabled: bool, usesOverRasterization: bool): bv32
  {
    if ZOrder(dbShaderControl) == EARLY_Z_THEN_LATE_Z && usesOverRasterization && isDepthEnabled
    then SetZOrder(dbShaderControl, LATE_Z)
    else dbShaderControl
  }

  /** WriteDbShaderControl: a write of DB_SHADER_CONTROL only under the over-rasterization workaround. */
  function DbShaderControlCommands(device: Device, dbShaderControl: bv32, isDepthEnabled: bool,
                                   usesOverRasterization: bool): seq<Command>
  {
    if device.waDbOverRasterization
    then [SetReg(ContextSpace, mmDB_SHADER_CONTROL, DbShaderControlForDraw(dbShaderControl, isDepthEnabled, usesOverRasterization))]
    else []
  }

  /**
   * The draw-time value never runs early Z with depth testing and
   * over-rasterization both on, differs from the pipeline's value only in
   * that case, and keeps Z_EXPORT_ENABLE.
   */
  lemma DrawTimeZOrder(dbShaderControl: bv32, isDepthEnabled: bool, usesOverRasterization: bool)
    ensures var w := DbShaderControlForDraw(dbShaderControl, isDepthEnabled, usesOverRasterization);
            && (isDepthEnabled && usesOverRasterization ==> ZOrder(w) != EARLY_Z_THEN_LATE_Z)
            && (ZOrder(dbShaderControl) != EARLY_Z_THEN_LATE_Z || !isDepthEnabled || !usesOverRasterization ==> w == dbShaderControl)
            && ZExportEnable(w) == ZExportEnable(dbShaderControl)
  {
  }

  /**
   * Between bind (on the set path) and draw, DB_SHADER_CONTROL is written
   * by exactly one of the two: at bind time without the workaround, at draw
   * time with it.
   */
  lemma DbShaderControlSingleWriter(ctx: ContextRegs, device: Device, isDepthEnabled: bool, usesOverRasterization: bool)
    ensures var bind := ContextCommandsSetPath(ctx, device.waDbOverRasterization);
            var draw := DbShaderControlCommands(device, ctx.dbShaderControl, isDepthEnabled, usesOverRasterization);
            && (device.waDbOverRasterization <==> |draw| == 1)
            && (device.waDbOverRasterization <==> !(exists i :: 0 <= i < |bind| && WritesTo(bind[i], ContextSpace, mmDB_SHADER_CONTROL)))
            && (forall i :: 0 <= i < |draw| ==> WritesTo(draw[i], ContextSpace, mmDB_SHADER_CONTROL))
  {
    var bind := ContextCommandsSetPath(ctx, device.waDbOverRasterization);
    if device.waDbOverRasterization {
      forall i | 0 <= i < |bind| ensures !WritesTo(bind[i], ContextSpace, mmDB_SHADER_CONTROL) {
        if WritesTo(bind[i], ContextSpace, mmDB_SHADER_CONTROL) {
          SetPathWritesOnlyBaseLoadedRegs(ctx, true, mmDB_SHADER_CONTROL, i);
        }
      }
    } else {
      SetPathWritesBaseLoadedRegs(ctx, false, mmDB_SHADER_CONTROL);
    }
  }

  // ---- SH commands ----

  /** The stage infos the chunks receive: computed into a zeroed table. */
  function BindStageInfos(chip: ChipProperties, graphicsInfo: DynamicGraphicsShaderInfos, tessEnabled: bool, gsEnabled: bool): DynamicStageInfos
  {
    var zero := DynamicStageInfo(0, 0);
    CalcDynamicStageInfos(chip, graphicsInfo, tessEnabled, gsEnabled, [zero, zero, zero, zero, zero, zero])
  }

  /** The SH commands of the chunks the pipeline has, each given the infos of its two hardware stages. */
  function ChunkShCommands(infos: DynamicStageInfos, loadPath: bool, tessEnabled: bool, gsEnabled: bool): seq<Command>
  {
    (if tessEnabled then [ChunkSh(ChunkLsHs, loadPath, infos[Ls.Index()], infos[Hs.Index()])] else []) +
    (if gsEnabled then [ChunkSh(ChunkEsGs, loadPath, infos[Es.Index()], infos[Gs.Index()])] else []) +
    [ChunkSh(ChunkVsPs, loadPath, infos[Vs.Index()], infos[Ps.Index()])]
  }

  /**
   * WriteShCommands: on the set path, SPI_SHADER_LATE_ALLOC_VS (GFX7 and
   * later) then the chunks' full SH commands; on the load path one load of
   * the uploaded SH image, then only the chunks' dynamic state.
   */
  function ShCommands(chip: ChipProperties, spiShaderLateAllocVs: bv32, loadPath: LoadPath, pm4OptimizerEnabled: bool,
                      graphicsInfo: DynamicGraphicsShaderInfos, tessEnabled: bool, gsEnabled: bool): seq<Command>
  {
    ShCommandsFor(chip, spiShaderLateAllocVs, loadPath, pm4OptimizerEnabled,
                  BindStageInfos(chip, graphicsInfo, tessEnabled, gsEnabled), tessEnabled, gsEnabled)
  }

  /** The SH commands for the dynamic stage infos `infos`. */
  function ShCommandsFor(chip: ChipProperties, spiShaderLateAllocVs: bv32, loadPath: LoadPath, pm4OptimizerEnabled: bool,
                         infos: DynamicStageInfos, tessEnabled: bool, gsEnabled: bool): seq<Command>
  {
    if UsesLoadPath(loadPath.countSh, pm4OptimizerEnabled) then
      [LoadIndex(ShSpace, loadPath.gpuVirtAddrSh, loadPath.countSh)] + ChunkShCommands(infos, true, tessEnabled, gsEnabled)
    else
      (if chip.gfxLevel.AtLeast(GfxIp7) then [SetReg(ShSpace, mmSPI_SHADER_LATE_ALLOC_VS, spiShaderLateAllocVs)] else [])
      + ChunkShCommands(infos, false, tessEnabled, gsEnabled)
  }

  /**
   * The late-alloc register is written only on the set path of a GFX7 or
   * later part, as the first command; the load path starts with the load.
   */
  lemma ShCommandsFirst(chip: ChipProperties, lateAllocVs: bv32, loadPath: LoadPath, opt: bool,
                        graphicsInfo: DynamicGraphicsShaderInfos, tess: bool, gs: bool)
    ensures var cmds := ShCommands(chip, lateAllocVs, loadPath, opt, graphicsInfo, tess, gs);
            && (UsesLoadPath(loadPath.countSh, opt) ==> cmds[0] == LoadIndex(ShSpace, loadPath.gpuVirtAddrSh, loadPath.countSh))
            && ((exists i :: 0 <= i < |cmds| && WritesTo(cmds[i], ShSpace, mmSPI_SHADER_LATE_ALLOC_VS)) <==>
                  !UsesLoadPath(loadPath.countSh, opt) && chip.gfxLevel.AtLeast(GfxIp7))
  {
    var cmds := ShCommands(chip, lateAllocVs, loadPath, opt, graphicsInfo, tess, gs);
    if UsesLoadPath(loadPath.countSh, opt) || !chip.gfxLevel.AtLeast(GfxIp7) {
      assert forall i :: 0 <= i < |cmds| ==> cmds[i].ChunkSh? || cmds[i].LoadIndex?;
    } else {
      assert WritesTo(cmds[0], ShSpace, mmSPI_SHADER_LATE_ALLOC_VS);
    }
  }

  /**
   * On GFX7 and later the VS/PS chunk, always bound last, receives for the
   * hardware VS the info of the API shader that runs there and for PS the
   * pixel shader's; on GFX6 every chunk receives zeroed infos.
   */
  lemma ShCommandsVsPsInfos(chip: ChipProperties, lateAllocVs: bv32, loadPath: LoadPath, opt: bool,
                            graphicsInfo: DynamicGraphicsShaderInfos, tess: bool, gs: bool)
    ensures var cmds := ShCommands(chip, lateAllocVs, loadPath, opt, graphicsInfo, tess, gs);
            var last := cmds[|cmds| - 1];
            && last.ChunkSh? && last.chunk == ChunkVsPs
            && (chip.gfxLevel.AtLeast(GfxIp7) ==>
                  && last.secondStage == CalcDynamicStageInfo(chip, graphicsInfo.ps)
                  && (!gs ==> last.firstStage == CalcDynamicStageInfo(chip, if tess then graphicsInfo.ds else graphicsInfo.vs)))
            && (!chip.gfxLevel.AtLeast(GfxIp7) ==> last.firstStage == DynamicStageInfo(0, 0) && last.secondStage == DynamicStageInfo(0, 0))
  {
  }

  // ---- The command stream ----

  /** A command stream: an append-only sequence of commands. */
  class CmdStream {
    var commands: seq<Command>
    const pm4OptimizerEnabled: bool

    constructor (pm4OptimizerEnabled: bool)
      ensures commands == [] && this.pm4OptimizerEnabled == pm4OptimizerEnabled
    {
      commands := [];
      this.pm4OptimizerEnabled := pm4OptimizerEnabled;
    }

    /** Appends one command. */
    method Write(c: Command)
      modifies this`commands
      ensures commands == old(commands) + [c]
    {
      commands := commands + [c];
    }
  }
}
