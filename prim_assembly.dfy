// IA_MULTI_VGT_PARAM: the primitive-group size and partial-wave and switch
// rules the input assembler works with (GraphicsPipeline::SetupIaMultiVgtParam
// and FixupIaMultiVgtParamOnGfx7Plus). Each function here computes the value
// one step of the source leaves in the register; the pipeline stores the
// results in its two-entry register array.
module PrimAssembly {
  import opened Common
  import opened Registers
  import opened Device

  /** Copies of IA_MULTI_VGT_PARAM the pipeline keeps: index 0 for ordinary draws, index 1 forcing WD_SWITCH_ON_EOP. */
  const NumIaMultiVgtParam: nat := 2

  /** GS table entries held back for ES waves combined across primitive groups. */
  const GsTableDepthReservedForEsWave: bv32 := 3

  /** Preferred number of GS primitives per ES thread. */
  const GsPrimsPerEsThread: bv32 := 256

  /** The shader stages and GS mode the register depends on. */
  datatype StageConfig = StageConfig(tessEnabled: bool, gsEnabled: bool, gsOnChip: bool)

  // ---- Setup from the pipeline binary ----

  /** Whether PRIMGROUP_SIZE is derived from VGT_LS_HS_CONFIG rather than taken from the binary. */
  predicate PrimgroupFromLsHsConfig(cfg: StageConfig, lsHsConfig: bv32)
  {
    cfg.tessEnabled || (cfg.gsEnabled && HsNumInputCp(lsHsConfig) != 0)
  }

  /**
   * The derived primitive-group size: with tessellation, the patches per
   * thread group minus one (in 32-bit arithmetic, then cut to the 16-bit
   * field); else, for a GS reading patches, the largest size whose groups
   * of control points fit in 256.
   */
  function DerivedPrimgroupSize(cfg: StageConfig, lsHsConfig: bv32): (v: bv32)
    requires PrimgroupFromLsHsConfig(cfg, lsHsConfig)
    ensures v <= 0xFFFF
  {
    if cfg.tessEnabled then (NumPatches(lsHsConfig) - 1) & 0xFFFF
    else (GsPrimsPerEsThread / HsNumInputCp(lsHsConfig)) - 1
  }

  /**
   * IA_MULTI_VGT_PARAM as SetupIaMultiVgtParam prepares it before the
   * per-copy fixup: the binary's value with the derived primitive-group
   * size, PARTIAL_ES_WAVE_ON set for an on-chip GS (the hardware sets it
   * too), and PARTIAL_VS_WAVE_ON set by the GS null-primitive workaround
   * when tessellation and GS are both on.
   */
  function BaseIaMultiVgtParam(device: Device, cfg: StageConfig, lsHsConfig: bv32, binaryValue: bv32): bv32
  {
    var w1 := if PrimgroupFromLsHsConfig(cfg, lsHsConfig)
              then SetPrimgroupSize(binaryValue, DerivedPrimgroupSize(cfg, lsHsConfig))
              else binaryValue;
    var w2 := if cfg.gsEnabled && cfg.gsOnChip then SetPartialEsWaveOn(w1, 1) else w1;
    if device.settings.waMiscGsNullPrim && cfg.tessEnabled && cfg.gsEnabled then SetPartialVsWaveOn(w2, 1) else w2
  }

  /**
   * With tessellation PRIMGROUP_SIZE + 1 equals the patches per thread
   * group, and with no patches the field wraps to all ones.
   */
  lemma BasePrimgroupSizeWithTess(device: Device, cfg: StageConfig, lsHsConfig: bv32, binaryValue: bv32)
    requires cfg.tessEnabled
    ensures var p := PrimgroupSize(BaseIaMultiVgtParam(device, cfg, lsHsConfig, binaryValue));
            && (NumPatches(lsHsConfig) != 0 ==> p + 1 == NumPatches(lsHsConfig))
            && (NumPatches(lsHsConfig) == 0 ==> p == 0xFFFF)
  {
    var w1 := SetPrimgroupSize(binaryValue, DerivedPrimgroupSize(cfg, lsHsConfig));
    assert PrimgroupSize(BaseIaMultiVgtParam(device, cfg, lsHsConfig, binaryValue)) == PrimgroupSize(w1);
    PatchesMinusOne(NumPatches(lsHsConfig));
  }

  /** NUM_PATCHES - 1, cut to 16 bits, is one below NUM_PATCHES, or all ones for 0. */
  lemma PatchesMinusOne(n: bv32)
    requires n <= 0xFF
    ensures n != 0 ==> ((n - 1) & 0xFFFF) + 1 == n
    ensures n == 0 ==> (n - 1) & 0xFFFF == 0xFFFF
  {
  }

  /**
   * Without tessellation, a GS reading patches gets the largest primitive
   * group whose control points fit in 256; a pipeline with neither keeps
   * the binary's size.
   */
  lemma BasePrimgroupSizeWithoutTess(device: Device, cfg: StageConfig, lsHsConfig: bv32, binaryValue: bv32)
    requires !cfg.tessEnabled
    ensures var p := PrimgroupSize(BaseIaMultiVgtParam(device, cfg, lsHsConfig, binaryValue));
            && (cfg.gsEnabled && HsNumInputCp(lsHsConfig) != 0 ==>
                  (p + 1) * HsNumInputCp(lsHsConfig) <= GsPrimsPerEsThread < (p + 2) * HsNumInputCp(lsHsConfig))
            && (!PrimgroupFromLsHsConfig(cfg, lsHsConfig) ==> p == PrimgroupSize(binaryValue))
  {
    if cfg.gsEnabled && HsNumInputCp(lsHsConfig) != 0 {
      var w1 := SetPrimgroupSize(binaryValue, DerivedPrimgroupSize(cfg, lsHsConfig));
      assert PrimgroupSize(BaseIaMultiVgtParam(device, cfg, lsHsConfig, binaryValue)) == PrimgroupSize(w1);
      ControlPointGroupFits(HsNumInputCp(lsHsConfig));
    }
  }

  /** `256 / cp - 1` groups of `cp` control points fit in 256 and one more group does not. */
  lemma ControlPointGroupFits(cp: bv32)
    requires 1 <= cp <= 0x3F
    ensures ((GsPrimsPerEsThread / cp - 1) + 1) * cp <= GsPrimsPerEsThread < ((GsPrimsPerEsThread / cp - 1) + 2) * cp
  {
  }

  /** An on-chip GS forces partial ES waves, and the null-primitive workaround forces partial VS waves. */
  lemma BasePartialWaves(device: Device, cfg: StageConfig, lsHsConfig: bv32, binaryValue: bv32)
    ensures var w := BaseIaMultiVgtParam(device, cfg, lsHsConfig, binaryValue);
            && (cfg.gsEnabled && cfg.gsOnChip ==> PartialEsWaveOn(w) == 1)
            && (device.settings.waMiscGsNullPrim && cfg.tessEnabled && cfg.gsEnabled ==> PartialVsWaveOn(w) == 1)
            && PartialEsWaveOn(binaryValue) <= PartialEsWaveOn(w)
            && PartialVsWaveOn(binaryValue) <= PartialVsWaveOn(w)
            && SwitchOnEop(w) == SwitchOnEop(binaryValue)
            && SwitchOnEoi(w) == SwitchOnEoi(binaryValue)
  {
  }

  // ---- Fixup on GFX7 and later ----

  /** Fields the fixup only ever sets: once on, they stay on. */
  predicate KeepsSetBits(w: bv32, r: bv32)
  {
    && (PartialEsWaveOn(w) == 1 ==> PartialEsWaveOn(r) == 1)
    && (PartialVsWaveOn(w) == 1 ==> PartialVsWaveOn(r) == 1)
    && (SwitchOnEoi(w) == 1 ==> SwitchOnEoi(r) == 1)
  }

  /** Fields the fixup never writes. */
  predicate KeepsInputFields(w: bv32, r: bv32)
  {
    PrimgroupSize(r) == PrimgroupSize(w) && SwitchOnEop(r) == SwitchOnEop(w)
  }

  /**
   * With a GS, partial ES waves are forced when a primitive group yields at
   * least as many GS primitives per ES thread as the GS table has entries
   * beyond its reserve (in 32-bit arithmetic).
   */
  function GsTableStep(chip: ChipProperties, gsEnabled: bool, w: bv32): (r: bv32)
    ensures KeepsSetBits(w, r) && KeepsInputFields(w, r)
    ensures WdSwitchOnEop(r) == WdSwitchOnEop(w) && MaxPrimgrpInWave(r) == MaxPrimgrpInWave(w)
    ensures PartialVsWaveOn(r) == PartialVsWaveOn(w) && SwitchOnEoi(r) == SwitchOnEoi(w)
    ensures gsEnabled && GsPrimsPerEsThread / (PrimgroupSize(w) + 1) >= chip.gsVgtTableDepth - GsTableDepthReservedForEsWave ==>
              PartialEsWaveOn(r) == 1
  {
    if gsEnabled && GsPrimsPerEsThread / (PrimgroupSize(w) + 1) >= chip.gsVgtTableDepth - GsTableDepthReservedForEsWave
    then SetPartialEsWaveOn(w, 1)
    else w
  }

  /**
   * With distributed tessellation (GFX8 and later), partial ES waves are
   * forced with a GS and partial VS waves without one.
   */
  function DistributedTessStep(gsEnabled: bool, vgtTfParam: bv32, w: bv32): (r: bv32)
    ensures KeepsSetBits(w, r) && KeepsInputFields(w, r)
    ensures WdSwitchOnEop(r) == WdSwitchOnEop(w) && SwitchOnEoi(r) == SwitchOnEoi(w) && MaxPrimgrpInWave(r) == MaxPrimgrpInWave(w)
    ensures DistributionMode(vgtTfParam) != NO_DIST ==> (if gsEnabled then PartialEsWaveOn(r) == 1 else PartialVsWaveOn(r) == 1)
  {
    if DistributionMode(vgtTfParam) != NO_DIST then
      (if gsEnabled then SetPartialEsWaveOn(w, 1) else SetPartialVsWaveOn(w, 1))
    else w
  }

  /** The off-chip GS hang workaround (GFX8 and later) forces partial VS waves whenever a GS runs. */
  function GsHangStep(device: Device, gsEnabled: bool, w: bv32): (r: bv32)
    ensures KeepsSetBits(w, r) && KeepsInputFields(w, r)
    ensures WdSwitchOnEop(r) == WdSwitchOnEop(w) && SwitchOnEoi(r) == SwitchOnEoi(w) && MaxPrimgrpInWave(r) == MaxPrimgrpInWave(w)
    ensures PartialEsWaveOn(r) == PartialEsWaveOn(w)
    ensures gsEnabled && device.waShaderOffChipGsHang ==> PartialVsWaveOn(r) == 1
  {
    if gsEnabled && device.waShaderOffChipGsHang then SetPartialVsWaveOn(w, 1) else w
  }

  /**
   * From GFX8 on: at most two primitive groups per ES or VS wave, then the
   * distributed-tessellation and GS hang rules.
   */
  function Gfx8Step(device: Device, gsEnabled: bool, vgtTfParam: bv32, w: bv32): (r: bv32)
    ensures KeepsSetBits(w, r) && KeepsInputFields(w, r)
    ensures WdSwitchOnEop(r) == WdSwitchOnEop(w) && SwitchOnEoi(r) == SwitchOnEoi(w)
    ensures device.chip.gfxLevel.AtLeast(GfxIp8) ==> MaxPrimgrpInWave(r) == 2
    ensures !device.chip.gfxLevel.AtLeast(GfxIp8) ==> r == w
    ensures device.chip.gfxLevel.AtLeast(GfxIp8) && DistributionMode(vgtTfParam) != NO_DIST ==>
              (if gsEnabled then PartialEsWaveOn(r) == 1 else PartialVsWaveOn(r) == 1)
    ensures device.chip.gfxLevel.AtLeast(GfxIp8) && gsEnabled && device.waShaderOffChipGsHang ==> PartialVsWaveOn(r) == 1
  {
    if device.chip.gfxLevel.AtLeast(GfxIp8) then
      GsHangStep(device, gsEnabled, DistributedTessStep(gsEnabled, vgtTfParam, SetMaxPrimgrpInWave(w, 2)))
    else
      w
  }

  /** Whether WD must switch IAs at the end of each packet. */
  predicate WdSwitchRequired(chip: ChipProperties, forceWdSwitchOnEop: bool, w: bv32)
  {
    SwitchOnEop(w) == 1 || chip.numShaderEngines <= 2 || forceWdSwitchOnEop
  }

  /**
   * WD_SWITCH_ON_EOP is set when IA switches on end of packet, on parts
   * with at most two shader engines, or when the caller forces it;
   * otherwise it is cleared and SWITCH_ON_EOI and PARTIAL_ES_WAVE_ON are set.
   */
  function WdSwitchStep(chip: ChipProperties, forceWdSwitchOnEop: bool, w: bv32): (r: bv32)
    ensures KeepsSetBits(w, r) && KeepsInputFields(w, r)
    ensures MaxPrimgrpInWave(r) == MaxPrimgrpInWave(w) && PartialVsWaveOn(r) == PartialVsWaveOn(w)
    ensures WdSwitchOnEop(r) == 1 <==> WdSwitchRequired(chip, forceWdSwitchOnEop, w)
    ensures WdSwitchOnEop(r) == 0 ==> SwitchOnEoi(r) == 1 && PartialEsWaveOn(r) == 1
  {
    if WdSwitchRequired(chip, forceWdSwitchOnEop, w) then SetWdSwitchOnEop(w, 1)
    else SetPartialEsWaveOn(SetSwitchOnEoi(SetWdSwitchOnEop(w, 0), 1), 1)
  }

  /** On GFX7 parts with more than two shader engines, switching on end of instance needs partial VS waves. */
  function EoiStep(chip: ChipProperties, w: bv32): (r: bv32)
    ensures KeepsSetBits(w, r) && KeepsInputFields(w, r)
    ensures MaxPrimgrpInWave(r) == MaxPrimgrpInWave(w) && PartialEsWaveOn(r) == PartialEsWaveOn(w)
    ensures WdSwitchOnEop(r) == WdSwitchOnEop(w) && SwitchOnEoi(r) == SwitchOnEoi(w)
    ensures chip.gfxLevel == GfxIp7 && chip.numShaderEngines > 2 && SwitchOnEoi(w) == 1 ==> PartialVsWaveOn(r) == 1
  {
    if SwitchOnEoi(w) == 1 && chip.gfxLevel == GfxIp7 && chip.numShaderEngines > 2 then SetPartialVsWaveOn(w, 1) else w
  }

  /** FixupIaMultiVgtParamOnGfx7Plus: the four steps in source order. */
  function FixupIaMultiVgtParamOnGfx7Plus(device: Device, gsEnabled: bool, vgtTfParam: bv32, forceWdSwitchOnEop: bool, w: bv32)
    : (r: bv32)
    ensures KeepsSetBits(w, r) && KeepsInputFields(w, r)
    ensures WdSwitchOnEop(r) == 0 ==> SwitchOnEoi(r) == 1 && PartialEsWaveOn(r) == 1
  {
    var w1 := GsTableStep(device.chip, gsEnabled, w);
    var w2 := Gfx8Step(device, gsEnabled, vgtTfParam, w1);
    var w3 := WdSwitchStep(device.chip, forceWdSwitchOnEop, w2);
    EoiStep(device.chip, w3)
  }

  /**
   * After the fixup, WD_SWITCH_ON_EOP is set exactly when SWITCH_ON_EOP
   * is, the part has at most two shader engines, or the caller forces it,
   * and when it is clear SWITCH_ON_EOI and PARTIAL_ES_WAVE_ON are set.
   */
  lemma FixupWdSwitchOnEop(device: Device, gsEnabled: bool, vgtTfParam: bv32, force: bool, w: bv32)
    ensures var r := FixupIaMultiVgtParamOnGfx7Plus(device, gsEnabled, vgtTfParam, force, w);
            && (WdSwitchOnEop(r) == 1 <==> WdSwitchRequired(device.chip, force, w))
            && (WdSwitchOnEop(r) == 0 ==> SwitchOnEoi(r) == 1 && PartialEsWaveOn(r) == 1)
  {
  }

  /**
   * The fixup never clears PARTIAL_ES_WAVE_ON, PARTIAL_VS_WAVE_ON or
   * SWITCH_ON_EOI, and never changes PRIMGROUP_SIZE or SWITCH_ON_EOP.
   */
  lemma FixupOnlySets(device: Device, gsEnabled: bool, vgtTfParam: bv32, force: bool, w: bv32)
    ensures var r := FixupIaMultiVgtParamOnGfx7Plus(device, gsEnabled, vgtTfParam, force, w);
            KeepsSetBits(w, r) && KeepsInputFields(w, r)
  {
  }

  /**
   * From GFX8 on the fixup caps primitive groups per wave at two and
   * forces the partial waves distributed tessellation and the off-chip GS
   * hang workaround require; on GFX7 it leaves MAX_PRIMGRP_IN_WAVE alone.
   */
  lemma FixupGfx8Rules(device: Device, gsEnabled: bool, vgtTfParam: bv32, force: bool, w: bv32)
    ensures var r := FixupIaMultiVgtParamOnGfx7Plus(device, gsEnabled, vgtTfParam, force, w);
            && (device.chip.gfxLevel.AtLeast(GfxIp8) ==> MaxPrimgrpInWave(r) == 2)
            && (!device.chip.gfxLevel.AtLeast(GfxIp8) ==> MaxPrimgrpInWave(r) == MaxPrimgrpInWave(w))
            && (device.chip.gfxLevel.AtLeast(GfxIp8) && DistributionMode(vgtTfParam) != NO_DIST ==>
                  (if gsEnabled then PartialEsWaveOn(r) == 1 else PartialVsWaveOn(r) == 1))
            && (device.chip.gfxLevel.AtLeast(GfxIp8) && gsEnabled && device.waShaderOffChipGsHang ==> PartialVsWaveOn(r) == 1)
  {
    var w1 := GsTableStep(device.chip, gsEnabled, w);
    var w2 := Gfx8Step(device, gsEnabled, vgtTfParam, w1);
    var w3 := WdSwitchStep(device.chip, forceWdSwitchOnEop := force, w := w2);
  }

  /**
   * On GFX7 parts with more than two shader engines, SWITCH_ON_EOI in the
   * fixed-up value always comes with PARTIAL_VS_WAVE_ON; with a GS whose
   * primitive groups fill the GS table, PARTIAL_ES_WAVE_ON is set.
   */
  lemma FixupEoiAndGsTable(device: Device, gsEnabled: bool, vgtTfParam: bv32, force: bool, w: bv32)
    ensures var r := FixupIaMultiVgtParamOnGfx7Plus(device, gsEnabled, vgtTfParam, force, w);
            && (device.chip.gfxLevel == GfxIp7 && device.chip.numShaderEngines > 2 && SwitchOnEoi(r) == 1 ==>
                  PartialVsWaveOn(r) == 1)
            && (gsEnabled && GsPrimsPerEsThread / (PrimgroupSize(w) + 1) >= device.chip.gsVgtTableDepth - GsTableDepthReservedForEsWave ==>
                  PartialEsWaveOn(r) == 1)
  {
  }

  /**
   * The value of copy `idx` of IA_MULTI_VGT_PARAM: the prepared value,
   * fixed up on GFX7 and later with WD_SWITCH_ON_EOP forced for every copy
   * but the first.
   */
  function IaMultiVgtParamCopy(device: Device, cfg: StageConfig, vgtTfParam: bv32, baseValue: bv32, idx: nat): bv32
  {
    if device.chip.gfxLevel != GfxIp6 then
      FixupIaMultiVgtParamOnGfx7Plus(device, cfg.gsEnabled, vgtTfParam, idx != 0, baseValue)
    else
      baseValue
  }

  /**
   * On GFX7 and later every copy but the first switches WD on end of
   * packet; on GFX6 all copies equal the prepared value.
   */
  lemma CopiesAfterTheFirstSwitchOnEop(device: Device, cfg: StageConfig, vgtTfParam: bv32, baseValue: bv32, idx: nat)
    ensures device.chip.gfxLevel != GfxIp6 && idx != 0 ==>
              WdSwitchOnEop(IaMultiVgtParamCopy(device, cfg, vgtTfParam, baseValue, idx)) == 1
    ensures device.chip.gfxLevel == GfxIp6 ==> IaMultiVgtParamCopy(device, cfg, vgtTfParam, baseValue, idx) == baseValue
  {
    if device.chip.gfxLevel != GfxIp6 {
      FixupWdSwitchOnEop(device, cfg.gsEnabled, vgtTfParam, idx != 0, baseValue);
    }
  }
}
