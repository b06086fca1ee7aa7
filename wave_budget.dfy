// How many waves a Gfx6-family graphics pipeline lets each hardware stage
// launch: the per-stage wave limits derived from the client's dynamic shader
// info (CalcMaxWavesPerSh, CalcDynamicStageInfos) and the late-alloc VS limit
// (SetupLateAllocVs).
module WaveBudget {
  import opened Common
  import opened Registers
  import opened Device
  import opened Signature
  import opened Stages

  // ---- Per-stage wave limits ----

  /** The WAVE_LIMIT field of the stage resource registers counts in units of 16 waves. */
  const MaxWavesPerShGraphicsUnitSize: nat := 16

  /** The waves one SH can run: CUs per SH times SIMDs per CU times waves per SIMD, in 32-bit arithmetic. */
  function MaxWavesPerShGraphics(chip: ChipProperties): u32
  {
    Mul32(chip.maxNumCuPerSh, Mul32(chip.numSimdPerCu, chip.numWavesPerSimd))
  }

  /**
   * The WAVE_LIMIT value for a client's per-CU wave cap: 0 (unlimited) when
   * the client sets none, otherwise the per-SH cap in units of 16 waves,
   * at least 1 and at most the SH's capacity.
   */
  function CalcMaxWavesPerSh(chip: ChipProperties, maxWavesPerCu: u32): (wavesPerSh: u32)
    ensures maxWavesPerCu == 0 ==> wavesPerSh == 0
    ensures wavesPerSh <= MaxWavesPerShGraphics(chip)
  {
    if maxWavesPerCu > 0 then
      var maxWavesPerSh := Mul32(maxWavesPerCu, chip.numCuPerSh);
      Min(MaxWavesPerShGraphics(chip), Max(1, maxWavesPerSh / MaxWavesPerShGraphicsUnitSize))
    else
      0
  }

  /**
   * A client cap is never turned into "unlimited" while the chip has any
   * capacity, and the limit, in waves, stays within the client's request
   * unless it was raised to the one-unit minimum.
   */
  lemma WaveLimitKeepsRequest(chip: ChipProperties, maxWavesPerCu: u32)
    ensures maxWavesPerCu > 0 && MaxWavesPerShGraphics(chip) > 0 ==> CalcMaxWavesPerSh(chip, maxWavesPerCu) >= 1
    ensures CalcMaxWavesPerSh(chip, maxWavesPerCu) <= 1 ||
            CalcMaxWavesPerSh(chip, maxWavesPerCu) * MaxWavesPerShGraphicsUnitSize <= Mul32(maxWavesPerCu, chip.numCuPerSh)
  {
  }

  /** A client's dynamic info for one API shader. */
  datatype DynamicGraphicsShaderInfo = DynamicGraphicsShaderInfo(maxWavesPerCu: u32, cuEnableMask: u32)

  /** A client's dynamic info for every graphics API shader. */
  datatype DynamicGraphicsShaderInfos = DynamicGraphicsShaderInfos(
    vs: DynamicGraphicsShaderInfo,
    hs: DynamicGraphicsShaderInfo,
    ds: DynamicGraphicsShaderInfo,
    gs: DynamicGraphicsShaderInfo,
    ps: DynamicGraphicsShaderInfo)

  /** The dynamic info of a graphics API shader. */
  function ShaderInfoFor(infos: DynamicGraphicsShaderInfos, api: ApiShader): DynamicGraphicsShaderInfo
    requires api != Compute
  {
    match api
    case Vertex => infos.vs
    case Hull => infos.hs
    case Domain => infos.ds
    case Geometry => infos.gs
    case Pixel => infos.ps
  }

  /** The wave limit and CU mask one hardware stage is launched with. */
  datatype DynamicStageInfo = DynamicStageInfo(wavesPerSh: u32, cuEnableMask: u32)

  /** The stage infos of the six hardware stages, indexed by `HwStage.Index()`. */
  type DynamicStageInfos = s: seq<DynamicStageInfo> | |s| == NumHwStages
    witness [DynamicStageInfo(0, 0), DynamicStageInfo(0, 0), DynamicStageInfo(0, 0),
             DynamicStageInfo(0, 0), DynamicStageInfo(0, 0), DynamicStageInfo(0, 0)]

  /** The hardware stage info for one API shader's dynamic info. */
  function CalcDynamicStageInfo(chip: ChipProperties, info: DynamicGraphicsShaderInfo): (r: DynamicStageInfo)
    ensures r.cuEnableMask == info.cuEnableMask
    ensures info.maxWavesPerCu == 0 ==> r.wavesPerSh == 0
  {
    DynamicStageInfo(CalcMaxWavesPerSh(chip, info.maxWavesPerCu), info.cuEnableMask)
  }

  /** `infos` with the entry of hardware stage `stage` replaced by the info computed from `info`. */
  function Put(chip: ChipProperties, infos: DynamicStageInfos, stage: HwStage, info: DynamicGraphicsShaderInfo): DynamicStageInfos
  {
    infos[stage.Index() := CalcDynamicStageInfo(chip, info)]
  }

  /**
   * The stage infos after CalcDynamicStageInfos: from GFX7 on, each API
   * shader's info goes to the hardware stage that runs it for the
   * pipeline's tessellation/GS configuration; entries of unused stages, and
   * all entries on GFX6, are left as the caller passed them.
   */
  function CalcDynamicStageInfos(chip: ChipProperties, graphicsInfo: DynamicGraphicsShaderInfos,
                                 tessEnabled: bool, gsEnabled: bool, stageInfos: DynamicStageInfos): (r: DynamicStageInfos)
    ensures !chip.gfxLevel.AtLeast(GfxIp7) ==> r == stageInfos
    ensures chip.gfxLevel.AtLeast(GfxIp7) ==>
              r[Ps.Index()] == CalcDynamicStageInfo(chip, graphicsInfo.ps) &&
              r[VbTableStage(tessEnabled, gsEnabled).Index()] == CalcDynamicStageInfo(chip, graphicsInfo.vs)
  {
    if chip.gfxLevel.AtLeast(GfxIp7) then
      var s := Put(chip, stageInfos, Ps, graphicsInfo.ps);
      if tessEnabled then
        var s := Put(chip, Put(chip, s, Ls, graphicsInfo.vs), Hs, graphicsInfo.hs);
        if gsEnabled then Put(chip, Put(chip, s, Es, graphicsInfo.ds), Gs, graphicsInfo.gs)
        else Put(chip, s, Vs, graphicsInfo.ds)
      else if gsEnabled then Put(chip, Put(chip, s, Es, graphicsInfo.vs), Gs, graphicsInfo.gs)
      else Put(chip, s, Vs, graphicsInfo.vs)
    else
      stageInfos
  }

  /**
   * From GFX7 on, every API shader the pipeline runs has its info computed
   * into the entry of the hardware stage GetShaderStageInfo reports for it.
   */
  lemma DynamicStageInfoPlacement(chip: ChipProperties, graphicsInfo: DynamicGraphicsShaderInfos,
                                  tessEnabled: bool, gsEnabled: bool, stageInfos: DynamicStageInfos, api: ApiShader)
    requires chip.gfxLevel.AtLeast(GfxIp7)
    requires ApiShaderPresent(api, tessEnabled, gsEnabled)
    ensures api != Compute && GetShaderStageInfo(api, tessEnabled, gsEnabled).Some?
    ensures CalcDynamicStageInfos(chip, graphicsInfo, tessEnabled, gsEnabled, stageInfos)
              [GetShaderStageInfo(api, tessEnabled, gsEnabled).value.Index()]
            == CalcDynamicStageInfo(chip, ShaderInfoFor(graphicsInfo, api))
  {
  }

  /**
   * The entry of a hardware stage that runs none of the pipeline's API
   * shaders keeps its old value, and on GFX6 nothing changes.
   */
  lemma DynamicStageInfoOthersKept(chip: ChipProperties, graphicsInfo: DynamicGraphicsShaderInfos,
                                   tessEnabled: bool, gsEnabled: bool, stageInfos: DynamicStageInfos, stage: HwStage)
    requires !chip.gfxLevel.AtLeast(GfxIp7) ||
             forall api :: ApiShaderPresent(api, tessEnabled, gsEnabled) ==> GetShaderStageInfo(api, tessEnabled, gsEnabled) != Some(stage)
    ensures CalcDynamicStageInfos(chip, graphicsInfo, tessEnabled, gsEnabled, stageInfos)[stage.Index()] == stageInfos[stage.Index()]
  {
    if chip.gfxLevel.AtLeast(GfxIp7) {
      assert ApiShaderPresent(Pixel, tessEnabled, gsEnabled) && ApiShaderPresent(Vertex, tessEnabled, gsEnabled);
      assert tessEnabled ==> ApiShaderPresent(Hull, tessEnabled, gsEnabled) && ApiShaderPresent(Domain, tessEnabled, gsEnabled);
      assert gsEnabled ==> ApiShaderPresent(Geometry, tessEnabled, gsEnabled);
    }
  }

  // ---- Late-alloc VS limit ----

  /** SIMDs per CU on every Gfx6-family chip. */
  const NumSimdPerCu: u32 := 4

  /** The late-alloc wave count the pipeline aims for: its own override when it has one, else the device's. */
  function TargetLateAllocLimit(device: Device, pipelineLimit: Option<u32>): u32
  {
    if pipelineLimit.Some? then pipelineLimit.value else device.lateAllocVsLimit
  }

  /** SGPRs a VS wave allocates: the SGPRS field of SPI_SHADER_PGM_RSRC1_VS counts in blocks of 8. */
  function VsNumSgpr(rsrc1Vs: bv32): (n: nat)
    ensures n <= 120 && n % 8 == 0
  {
    (Sgprs(rsrc1Vs) as nat) * 8
  }

  /** VGPRs a VS wave allocates: the VGPRS field of SPI_SHADER_PGM_RSRC1_VS counts in blocks of 4. */
  function VsNumVgpr(rsrc1Vs: bv32): (n: nat)
    ensures n <= 252 && n % 4 == 0
  {
    (Vgprs(rsrc1Vs) as nat) * 4
  }

  /** The CUs whose SIMDs count for the late-alloc limit: the always-on CUs when the setting asks for them. */
  function NumCuForLateAllocVs(device: Device): u32
  {
    if device.settings.gfx7LateAllocVsOnCuAlwaysOn then device.chip.numCuAlwaysOnPerSh else device.chip.numCuPerSh
  }

  /**
   * The VS waves that fit in one SH given the shader's register use, and,
   * when both VS and PS use scratch, the in-flight scratch wave cap.
   */
  function MaxVsWaves(device: Device, rsrc1Vs: bv32, rsrc2Vs: bv32, rsrc2Ps: bv32): (waves: u32)
    requires VsNumSgpr(rsrc1Vs) > 0 && VsNumVgpr(rsrc1Vs) > 0
    ensures ScratchEn(rsrc2Vs) != 0 && ScratchEn(rsrc2Ps) != 0 ==>
              waves <= Mul32(NumCuForLateAllocVs(device), device.settings.numScratchWavesPerCu)
  {
    var numCu := NumCuForLateAllocVs(device);
    var simdPerSh := Mul32(numCu, NumSimdPerCu);
    var maxSgprVsWaves := Mul32(device.chip.numPhysicalSgprs / VsNumSgpr(rsrc1Vs), simdPerSh);
    var maxVgprVsWaves := Mul32(device.chip.numPhysicalVgprs / VsNumVgpr(rsrc1Vs), simdPerSh);
    var waves := Min(maxSgprVsWaves, maxVgprVsWaves);
    if ScratchEn(rsrc2Vs) != 0 && ScratchEn(rsrc2Ps) != 0 then
      Min(waves, Mul32(numCu, device.settings.numScratchWavesPerCu))
    else
      waves
  }

  /** Whether the dynamic (non-fixed) scheme has a target and a shader that uses registers to work with. */
  predicate DynamicSchemeApplies(device: Device, target: u32, rsrc1Vs: bv32)
  {
    !device.useFixedLateAllocVsLimit && target > 0 && VsNumSgpr(rsrc1Vs) > 0 && VsNumVgpr(rsrc1Vs) > 0
  }

  /**
   * The late-alloc wave count before it is encoded: the target under the
   * fixed scheme; under the dynamic scheme the target, lowered to one below
   * the VS waves that fit (but not below 1) when it does not fit; else 0.
   */
  function LateAllocWaves(device: Device, target: u32, rsrc1Vs: bv32, rsrc2Vs: bv32, rsrc2Ps: bv32): u32
  {
    if device.useFixedLateAllocVsLimit then
      target
    else if DynamicSchemeApplies(device, target, rsrc1Vs) then
      var maxVsWaves := MaxVsWaves(device, rsrc1Vs, rsrc2Vs, rsrc2Ps);
      if maxVsWaves <= target then (if maxVsWaves > 1 then maxVsWaves - 1 else 1) else target
    else
      0
  }

  /**
   * The LIMIT field value: the wave count minus one (0 stays 0), capped by
   * the chip's largest LIMIT value and truncated to the 6-bit field.
   */
  function LateAllocLimitField(device: Device, target: u32, rsrc1Vs: bv32, rsrc2Vs: bv32, rsrc2Ps: bv32): (limit: nat)
    ensures limit < 64
  {
    var waves := LateAllocWaves(device, target, rsrc1Vs, rsrc2Vs, rsrc2Ps);
    var lateAllocLimit := if waves > 0 then waves - 1 else 0;
    Min(lateAllocLimit, Sub32(device.chip.maxLateAllocVsLimit, 1)) % 64
  }

  /** The registers SetupLateAllocVs reads are those of the VS and PS resource descriptors. */
  predicate HasLateAllocInputs(regs: RegisterVector)
  {
    mmSPI_SHADER_PGM_RSRC1_VS in regs && mmSPI_SHADER_PGM_RSRC2_VS in regs && mmSPI_SHADER_PGM_RSRC2_PS in regs
  }

  /**
   * SPI_SHADER_LATE_ALLOC_VS after SetupLateAllocVs: untouched on GFX6,
   * otherwise its LIMIT field set from the shader registers and the rest of
   * the word kept.
   */
  function LateAllocVsValue(device: Device, pipelineLimit: Option<u32>, regs: RegisterVector, lateAllocVs: bv32): (r: bv32)
    requires device.chip.gfxLevel != GfxIp6 ==> HasLateAllocInputs(regs)
    ensures device.chip.gfxLevel == GfxIp6 ==> r == lateAllocVs
    ensures device.chip.gfxLevel != GfxIp6 ==>
              LateAllocLimit(r) as nat == LateAllocLimitField(device, TargetLateAllocLimit(device, pipelineLimit),
                At(regs, mmSPI_SHADER_PGM_RSRC1_VS), At(regs, mmSPI_SHADER_PGM_RSRC2_VS), At(regs, mmSPI_SHADER_PGM_RSRC2_PS))
  {
    if device.chip.gfxLevel == GfxIp6 then
      lateAllocVs
    else
      var limit := LateAllocLimitField(device, TargetLateAllocLimit(device, pipelineLimit),
        At(regs, mmSPI_SHADER_PGM_RSRC1_VS), At(regs, mmSPI_SHADER_PGM_RSRC2_VS), At(regs, mmSPI_SHADER_PGM_RSRC2_PS));
      LimitReadsBack(lateAllocVs, limit);
      SetLateAllocLimit(lateAllocVs, (limit as bv6) as bv32)
  }

  /** A LIMIT value below 64 written into the register reads back unchanged. */
  lemma LimitReadsBack(w: bv32, limit: nat)
    requires limit < 64
    ensures ((limit as bv6) as bv32) <= 0x3F
    ensures LateAllocLimit(SetLateAllocLimit(w, (limit as bv6) as bv32)) as nat == limit
  {
    assert ((limit as bv6) as bv32) as nat == limit;
  }

  /**
   * LIMIT counts waves minus one, so LIMIT + 1 late-alloc waves never
   * exceed the chip's maximum, when that maximum fits the 6-bit field.
   */
  lemma LateAllocWithinChipMaximum(device: Device, target: u32, rsrc1Vs: bv32, rsrc2Vs: bv32, rsrc2Ps: bv32)
    requires 1 <= device.chip.maxLateAllocVsLimit <= 64
    ensures LateAllocLimitField(device, target, rsrc1Vs, rsrc2Vs, rsrc2Ps) + 1 <= device.chip.maxLateAllocVsLimit
  {
  }

  /**
   * Under the dynamic scheme, when more than one VS wave fits, the
   * late-alloc waves stay strictly below the VS waves that fit, so a VS
   * wave with its export space allocated can always launch beside them.
   */
  lemma LateAllocLeavesHeadroom(device: Device, target: u32, rsrc1Vs: bv32, rsrc2Vs: bv32, rsrc2Ps: bv32)
    requires DynamicSchemeApplies(device, target, rsrc1Vs)
    requires MaxVsWaves(device, rsrc1Vs, rsrc2Vs, rsrc2Ps) > 1
    ensures LateAllocLimitField(device, target, rsrc1Vs, rsrc2Vs, rsrc2Ps) + 2 <= MaxVsWaves(device, rsrc1Vs, rsrc2Vs, rsrc2Ps)
  {
  }

  /**
   * Under the dynamic scheme, a target that does not fit the VS waves
   * available is lowered, and a target that does fit is kept.
   */
  lemma LateAllocTargetKeptWhenItFits(device: Device, target: u32, rsrc1Vs: bv32, rsrc2Vs: bv32, rsrc2Ps: bv32)
    requires DynamicSchemeApplies(device, target, rsrc1Vs)
    ensures target < MaxVsWaves(device, rsrc1Vs, rsrc2Vs, rsrc2Ps) ==> LateAllocWaves(device, target, rsrc1Vs, rsrc2Vs, rsrc2Ps) == target
    ensures MaxVsWaves(device, rsrc1Vs, rsrc2Vs, rsrc2Ps) <= target ==>
              1 <= LateAllocWaves(device, target, rsrc1Vs, rsrc2Vs, rsrc2Ps) &&
              (LateAllocWaves(device, target, rsrc1Vs, rsrc2Vs, rsrc2Ps) < MaxVsWaves(device, rsrc1Vs, rsrc2Vs, rsrc2Ps) ||
               LateAllocWaves(device, target, rsrc1Vs, rsrc2Vs, rsrc2Ps) == 1)
  {
  }

  /**
   * Outside the fixed scheme, without a target or with a VS that uses no
   * SGPRs or no VGPRs, LIMIT is 0 (VS waves nearly always allocate export
   * space before launching, as on GFX6).
   */
  lemma LateAllocDefaultsToZero(device: Device, target: u32, rsrc1Vs: bv32, rsrc2Vs: bv32, rsrc2Ps: bv32)
    requires !device.useFixedLateAllocVsLimit
    requires target == 0 || VsNumSgpr(rsrc1Vs) == 0 || VsNumVgpr(rsrc1Vs) == 0
    ensures LateAllocLimitField(device, target, rsrc1Vs, rsrc2Vs, rsrc2Ps) == 0
  {
  }

  /** Under the fixed scheme the limit depends on the target alone, never on the shader's registers. */
  lemma FixedLateAllocIgnoresShader(device: Device, target: u32, rsrc1Vs: bv32, rsrc2Vs: bv32, rsrc2Ps: bv32,
                                    rsrc1Vs': bv32, rsrc2Vs': bv32, rsrc2Ps': bv32)
    requires device.useFixedLateAllocVsLimit
    ensures LateAllocLimitField(device, target, rsrc1Vs, rsrc2Vs, rsrc2Ps) == LateAllocLimitField(device, target, rsrc1Vs', rsrc2Vs', rsrc2Ps')
  {
  }
}
