// Register addresses, the sparse register image delivered with a pipeline
// binary, and the named bit fields of the Gfx6-family registers the pipeline
// reads or programs.  A register value is a raw 32-bit word; every field has a
// getter and, when the pipeline writes it, a setter whose contract says that
// only that field changes.
module Registers {
  import opened Common

  // ---- Context register addresses ----
  const mmDB_RENDER_OVERRIDE: u16 := 0xA003
  const mmCB_TARGET_MASK: u16 := 0xA08E
  const mmCB_SHADER_MASK: u16 := 0xA08F
  const mmSPI_INTERP_CONTROL_0: u16 := 0xA1B5
  const mmCB_COLOR_CONTROL: u16 := 0xA202
  const mmDB_SHADER_CONTROL: u16 := 0xA203
  const mmPA_CL_CLIP_CNTL: u16 := 0xA204
  const mmPA_CL_VTE_CNTL: u16 := 0xA206
  const mmVGT_GS_MODE: u16 := 0xA290
  const mmPA_SC_MODE_CNTL_1: u16 := 0xA293
  const mmIA_MULTI_VGT_PARAM: u16 := 0xA2AA
  const mmVGT_REUSE_OFF: u16 := 0xA2AD
  const mmVGT_SHADER_STAGES_EN: u16 := 0xA2D6
  const mmVGT_LS_HS_CONFIG: u16 := 0xA2D9
  const mmVGT_TF_PARAM: u16 := 0xA2DB
  const mmDB_ALPHA_TO_MASK: u16 := 0xA2DC
  const mmVGT_STRMOUT_CONFIG: u16 := 0xA2E5
  const mmPA_SC_LINE_CNTL: u16 := 0xA2F7
  const mmPA_SU_VTX_CNTL: u16 := 0xA2F9
  const mmVGT_VERTEX_REUSE_BLOCK_CNTL: u16 := 0xA316

  // ---- Persistent-state (SH) register addresses ----
  const mmSPI_SHADER_PGM_RSRC2_PS: u16 := 0x2C0B
  const mmSPI_SHADER_USER_DATA_PS_0: u16 := 0x2C0C
  const mmSPI_SHADER_LATE_ALLOC_VS: u16 := 0x2C47
  const mmSPI_SHADER_PGM_RSRC1_VS: u16 := 0x2C4A
  const mmSPI_SHADER_PGM_RSRC2_VS: u16 := 0x2C4B
  const mmSPI_SHADER_USER_DATA_VS_0: u16 := 0x2C4C
  const mmSPI_SHADER_USER_DATA_GS_0: u16 := 0x2C8C
  const mmSPI_SHADER_USER_DATA_ES_0: u16 := 0x2CCC
  const mmSPI_SHADER_USER_DATA_HS_0: u16 := 0x2D0C
  const mmSPI_SHADER_USER_DATA_LS_0: u16 := 0x2D4C

  /** Each hardware stage has sixteen consecutive user-data registers. */
  const NumUserDataRegs: nat := 16

  /**
   * The register image carried by a pipeline binary: a partial map from
   * register address to 32-bit value.
   */
  type RegisterVector = map<u16, bv32>

  /** Reads a register the binary must provide. */
  function At(regs: RegisterVector, addr: u16): (v: bv32)
    requires addr in regs
    ensures v == regs[addr]
  {
    regs[addr]
  }

  /**
   * Reads a register the binary may omit: the destination keeps its previous
   * value `dst` when the address is absent.
   */
  function HasEntry(regs: RegisterVector, addr: u16, dst: bv32): (v: bv32)
    ensures addr in regs ==> v == regs[addr]
    ensures addr !in regs ==> v == dst
  {
    if addr in regs then regs[addr] else dst
  }

  // ---- Enumerated field values ----
  const VgtGsModeOnchip: bv32 := 3
  const PART_FRAC_ODD: bv32 := 2
  const NO_DIST: bv32 := 0
  const LATE_Z: bv32 := 0
  const EARLY_Z_THEN_LATE_Z: bv32 := 1
  const RE_Z: bv32 := 2
  const EARLY_Z_THEN_RE_Z: bv32 := 3
  const CB_DISABLE: bv32 := 0
  const CB_NORMAL: bv32 := 1
  const CB_ELIMINATE_FAST_CLEAR: bv32 := 2
  const CB_RESOLVE: bv32 := 3
  const CB_FMASK_DECOMPRESS: bv32 := 5
  const CB_DCC_DECOMPRESS: bv32 := 6

  // ---- Per-slot nibbles (CB_TARGET_MASK, CB_SHADER_MASK and the SX RB+ registers) ----

  /** The four bits of `w` that belong to render-target slot `slot` (bits 4*slot .. 4*slot+3). */
  function Nibble(w: bv32, slot: bv32): (r: bv32)
    requires slot < 8
    ensures r <= 0xF
  {
    (w >> (slot << 2)) & 0xF
  }

  /** Clears slot `slot`'s four bits of `w` and ORs `v` into them. */
  function SetNibble(w: bv32, slot: bv32, v: bv32): (r: bv32)
    requires slot < 8 && v <= 0xF
    ensures Nibble(r, slot) == v
  {
    (w & !(0xF << (slot << 2))) | (v << (slot << 2))
  }

  lemma SetNibbleOther(w: bv32, slot: bv32, v: bv32, k: bv32)
    requires slot < 8 && v <= 0xF && k < 8 && k != slot
    ensures Nibble(SetNibble(w, slot, v), k) == Nibble(w, k)
  {
  }

  /** Clears the low two bits of slot `slot`'s group and ORs `v` into them. */
  function SetNibbleLow2(w: bv32, slot: bv32, v: bv32): (r: bv32)
    requires slot < 8 && v <= 3
    ensures Nibble(r, slot) & 3 == v
    ensures Nibble(r, slot) & 0xC == Nibble(w, slot) & 0xC
  {
    (w & !(3 << (slot << 2))) | (v << (slot << 2))
  }

  lemma SetNibbleLow2Other(w: bv32, slot: bv32, v: bv32, k: bv32)
    requires slot < 8 && v <= 3 && k < 8 && k != slot
    ensures Nibble(SetNibbleLow2(w, slot, v), k) == Nibble(w, k)
  {
  }

  /** ORing `v` into a slot whose bits are clear is the same as setting them. */
  lemma OrIntoClearNibble(w: bv32, slot: bv32, v: bv32)
    requires slot < 8 && v <= 0xF && Nibble(w, slot) == 0
    ensures w | (v << (slot << 2)) == SetNibble(w, slot, v)
  {
  }

  /** A word is zero exactly when all eight of its slot groups are. */
  lemma ZeroIffNibblesZero(w: bv32)
    ensures w == 0 <==> (Nibble(w, 0) == 0 && Nibble(w, 1) == 0 && Nibble(w, 2) == 0 && Nibble(w, 3) == 0 &&
                         Nibble(w, 4) == 0 && Nibble(w, 5) == 0 && Nibble(w, 6) == 0 && Nibble(w, 7) == 0)
  {
  }

  // ---- VGT_SHADER_STAGES_EN ----

  /** VGT_SHADER_STAGES_EN.HS_EN (bits 2..2). */
  function HsEn(w: bv32): (f: bv32) ensures f <= 0x1 { (w >> 2) & 0x1 }

  /** VGT_SHADER_STAGES_EN.GS_EN (bits 5..5). */
  function GsEn(w: bv32): (f: bv32) ensures f <= 0x1 { (w >> 5) & 0x1 }

  /** VGT_SHADER_STAGES_EN.DYNAMIC_HS (bits 8..8). */
  function DynamicHs(w: bv32): (f: bv32) ensures f <= 0x1 { (w >> 8) & 0x1 }

  // ---- VGT_GS_MODE ----

  /** VGT_GS_MODE.ONCHIP (bits 21..22). */
  function GsOnchip(w: bv32): (f: bv32) ensures f <= 0x3 { (w >> 21) & 0x3 }

  // ---- VGT_TF_PARAM ----

  /** VGT_TF_PARAM.PARTITIONING (bits 2..4). */
  function Partitioning(w: bv32): (f: bv32) ensures f <= 0x7 { (w >> 2) & 0x7 }

  /** VGT_TF_PARAM.NUM_DS_WAVES_PER_SIMD (bits 10..13). */
  function NumDsWavesPerSimd(w: bv32): (f: bv32) ensures f <= 0xF { (w >> 10) & 0xF }
  const NUM_DS_WAVES_PER_SIMD_MASK: bv32 := 0x3C00
  function SetNumDsWavesPerSimd(w: bv32, v: bv32): (r: bv32)
    requires v <= 0xF
    ensures NumDsWavesPerSimd(r) == v
    ensures Partitioning(r) == Partitioning(w)
    ensures DistributionMode(r) == DistributionMode(w)
  {
    SetNumDsWavesPerSimdReads(w, v); SetNumDsWavesPerSimdKeepsPartitioning(w, v); SetNumDsWavesPerSimdKeepsDistributionMode(w, v);
    (w & !NUM_DS_WAVES_PER_SIMD_MASK) | (v << 10)
  }

  lemma SetNumDsWavesPerSimdReads(w: bv32, v: bv32)
    requires v <= 0xF
    ensures NumDsWavesPerSimd((w & !NUM_DS_WAVES_PER_SIMD_MASK) | (v << 10)) == v
  {
  }

  lemma SetNumDsWavesPerSimdKeepsPartitioning(w: bv32, v: bv32)
    requires v <= 0xF
    ensures Partitioning((w & !NUM_DS_WAVES_PER_SIMD_MASK) | (v << 10)) == Partitioning(w)
  {
  }

  lemma SetNumDsWavesPerSimdKeepsDistributionMode(w: bv32, v: bv32)
    requires v <= 0xF
    ensures DistributionMode((w & !NUM_DS_WAVES_PER_SIMD_MASK) | (v << 10)) == DistributionMode(w)
  {
  }

  /** VGT_TF_PARAM.DISTRIBUTION_MODE (bits 17..18). */
  function DistributionMode(w: bv32): (f: bv32) ensures f <= 0x3 { (w >> 17) & 0x3 }

  // ---- PA_SC_MODE_CNTL_1 ----

  /** PA_SC_MODE_CNTL_1.WALK_FENCE_SIZE (bits 4..6). */
  function WalkFenceSize(w: bv32): (f: bv32) ensures f <= 0x7 { (w >> 4) & 0x7 }
  const WALK_FENCE_SIZE_MASK: bv32 := 0x70
  function SetWalkFenceSize(w: bv32, v: bv32): (r: bv32)
    requires v <= 0x7
    ensures WalkFenceSize(r) == v
    ensures PsIterSample(r) == PsIterSample(w)
    ensures OutOfOrderPrimitiveEnable(r) == OutOfOrderPrimitiveEnable(w)
    ensures OutOfOrderWaterMark(r) == OutOfOrderWaterMark(w)
  {
    SetWalkFenceSizeReads(w, v); SetWalkFenceSizeKeepsPsIterSample(w, v); SetWalkFenceSizeKeepsOutOfOrderPrimitiveEnable(w, v); SetWalkFenceSizeKeepsOutOfOrderWaterMark(w, v);
    (w & !WALK_FENCE_SIZE_MASK) | (v << 4)
  }

  lemma SetWalkFenceSizeReads(w: bv32, v: bv32)
    requires v <= 0x7
    ensures WalkFenceSize((w & !WALK_FENCE_SIZE_MASK) | (v << 4)) == v
  {
  }

  lemma SetWalkFenceSizeKeepsPsIterSample(w: bv32, v: bv32)
    requires v <= 0x7
    ensures PsIterSample((w & !WALK_FENCE_SIZE_MASK) | (v << 4)) == PsIterSample(w)
  {
  }

  lemma SetWalkFenceSizeKeepsOutOfOrderPrimitiveEnable(w: bv32, v: bv32)
    requires v <= 0x7
    ensures OutOfOrderPrimitiveEnable((w & !WALK_FENCE_SIZE_MASK) | (v << 4)) == OutOfOrderPrimitiveEnable(w)
  {
  }

  lemma SetWalkFenceSizeKeepsOutOfOrderWaterMark(w: bv32, v: bv32)
    requires v <= 0x7
    ensures OutOfOrderWaterMark((w & !WALK_FENCE_SIZE_MASK) | (v << 4)) == OutOfOrderWaterMark(w)
  {
  }

  /** PA_SC_MODE_CNTL_1.PS_ITER_SAMPLE (bits 16..16). */
  function PsIterSample(w: bv32): (f: bv32) ensures f <= 0x1 { (w >> 16) & 0x1 }
  const PS_ITER_SAMPLE_MASK: bv32 := 0x1_0000
  function SetPsIterSample(w: bv32, v: bv32): (r: bv32)
    requires v <= 0x1
    ensures PsIterSample(r) == v
    ensures WalkFenceSize(r) == WalkFenceSize(w)
    ensures OutOfOrderPrimitiveEnable(r) == OutOfOrderPrimitiveEnable(w)
    ensures OutOfOrderWaterMark(r) == OutOfOrderWaterMark(w)
  {
    SetPsIterSampleReads(w, v); SetPsIterSampleKeepsWalkFenceSize(w, v); SetPsIterSampleKeepsOutOfOrderPrimitiveEnable(w, v); SetPsIterSampleKeepsOutOfOrderWaterMark(w, v);
    (w & !PS_ITER_SAMPLE_MASK) | (v << 16)
  }

  lemma SetPsIterSampleReads(w: bv32, v: bv32)
    requires v <= 0x1
    ensures PsIterSample((w & !PS_ITER_SAMPLE_MASK) | (v << 16)) == v
  {
  }

  lemma SetPsIterSampleKeepsWalkFenceSize(w: bv32, v: bv32)
    requires v <= 0x1
    ensures WalkFenceSize((w & !PS_ITER_SAMPLE_MASK) | (v << 16)) == WalkFenceSize(w)
  {
  }

  lemma SetPsIterSampleKeepsOutOfOrderPrimitiveEnable(w: bv32, v: bv32)
    requires v <= 0x1
    ensures OutOfOrderPrimitiveEnable((w & !PS_ITER_SAMPLE_MASK) | (v << 16)) == OutOfOrderPrimitiveEnable(w)
  {
  }

  lemma SetPsIterSampleKeepsOutOfOrderWaterMark(w: bv32, v: bv32)
    requires v <= 0x1
    ensures OutOfOrderWaterMark((w & !PS_ITER_SAMPLE_MASK) | (v << 16)) == OutOfOrderWaterMark(w)
  {
  }

  /** PA_SC_MODE_CNTL_1.OUT_OF_ORDER_PRIMITIVE_ENABLE (bits 27..27). */
  function OutOfOrderPrimitiveEnable(w: bv32): (f: bv32) ensures f <= 0x1 { (w >> 27) & 0x1 }
  const OUT_OF_ORDER_PRIMITIVE_ENABLE_MASK: bv32 := 0x800_0000
  function SetOutOfOrderPrimitiveEnable(w: bv32, v: bv32): (r: bv32)
    requires v <= 0x1
    ensures OutOfOrderPrimitiveEnable(r) == v
    ensures WalkFenceSize(r) == WalkFenceSize(w)
    ensures PsIterSample(r) == PsIterSample(w)
    ensures OutOfOrderWaterMark(r) == OutOfOrderWaterMark(w)
  {
    SetOutOfOrderPrimitiveEnableReads(w, v); SetOutOfOrderPrimitiveEnableKeepsWalkFenceSize(w, v); SetOutOfOrderPrimitiveEnableKeepsPsIterSample(w, v); SetOutOfOrderPrimitiveEnableKeepsOutOfOrderWaterMark(w, v);
    (w & !OUT_OF_ORDER_PRIMITIVE_ENABLE_MASK) | (v << 27)
  }

  lemma SetOutOfOrderPrimitiveEnableReads(w: bv32, v: bv32)
    requires v <= 0x1
    ensures OutOfOrderPrimitiveEnable((w & !OUT_OF_ORDER_PRIMITIVE_ENABLE_MASK) | (v << 27)) == v
  {
  }

  lemma SetOutOfOrderPrimitiveEnableKeepsWalkFenceSize(w: bv32, v: bv32)
    requires v <= 0x1
    ensures WalkFenceSize((w & !OUT_OF_ORDER_PRIMITIVE_ENABLE_MASK) | (v << 27)) == WalkFenceSize(w)
  {
  }

  lemma SetOutOfOrderPrimitiveEnableKeepsPsIterSample(w: bv32, v: bv32)
    requires v <= 0x1
    ensures PsIterSample((w & !OUT_OF_ORDER_PRIMITIVE_ENABLE_MASK) | (v << 27)) == PsIterSample(w)
  {
  }

  lemma SetOutOfOrderPrimitiveEnableKeepsOutOfOrderWaterMark(w: bv32, v: bv32)
    requires v <= 0x1
    ensures OutOfOrderWaterMark((w & !OUT_OF_ORDER_PRIMITIVE_ENABLE_MASK) | (v << 27)) == OutOfOrderWaterMark(w)
  {
  }

  /** PA_SC_MODE_CNTL_1.OUT_OF_ORDER_WATER_MARK (bits 28..30). */
  function OutOfOrderWaterMark(w: bv32): (f: bv32) ensures f <= 0x7 { (w >> 28) & 0x7 }
  const OUT_OF_ORDER_WATER_MARK_MASK: bv32 := 0x7000_0000
  function SetOutOfOrderWaterMark(w: bv32, v: bv32): (r: bv32)
    requires v <= 0x7
    ensures OutOfOrderWaterMark(r) == v
    ensures WalkFenceSize(r) == WalkFenceSize(w)
    ensures PsIterSample(r) == PsIterSample(w)
    ensures OutOfOrderPrimitiveEnable(r) == OutOfOrderPrimitiveEnable(w)
  {
    SetOutOfOrderWaterMarkReads(w, v); SetOutOfOrderWaterMarkKeepsWalkFenceSize(w, v); SetOutOfOrderWaterMarkKeepsPsIterSample(w, v); SetOutOfOrderWaterMarkKeepsOutOfOrderPrimitiveEnable(w, v);
    (w & !OUT_OF_ORDER_WATER_MARK_MASK) | (v << 28)
  }

  lemma SetOutOfOrderWaterMarkReads(w: bv32, v: bv32)
    requires v <= 0x7
    ensures OutOfOrderWaterMark((w & !OUT_OF_ORDER_WATER_MARK_MASK) | (v << 28)) == v
  {
  }

  lemma SetOutOfOrderWaterMarkKeepsWalkFenceSize(w: bv32, v: bv32)
    requires v <= 0x7
    ensures WalkFenceSize((w & !OUT_OF_ORDER_WATER_MARK_MASK) | (v << 28)) == WalkFenceSize(w)
  {
  }

  lemma SetOutOfOrderWaterMarkKeepsPsIterSample(w: bv32, v: bv32)
    requires v <= 0x7
    ensures PsIterSample((w & !OUT_OF_ORDER_WATER_MARK_MASK) | (v << 28)) == PsIterSample(w)
  {
  }

  lemma SetOutOfOrderWaterMarkKeepsOutOfOrderPrimitiveEnable(w: bv32, v: bv32)
    requires v <= 0x7
    ensures OutOfOrderPrimitiveEnable((w & !OUT_OF_ORDER_WATER_MARK_MASK) | (v << 28)) == OutOfOrderPrimitiveEnable(w)
  {
  }

  // ---- DB_SHADER_CONTROL ----

  /** DB_SHADER_CONTROL.Z_EXPORT_ENABLE (bits 0..0). */
  function ZExportEnable(w: bv32): (f: bv32) ensures f <= 0x1 { w & 0x1 }

  /** DB_SHADER_CONTROL.Z_ORDER (bits 4..5). */
  function ZOrder(w: bv32): (f: bv32) ensures f <= 0x3 { (w >> 4) & 0x3 }
  const Z_ORDER_MASK: bv32 := 0x30
  function SetZOrder(w: bv32, v: bv32): (r: bv32)
    requires v <= 0x3
    ensures ZOrder(r) == v
    ensures ZExportEnable(r) == ZExportEnable(w)
  {
    SetZOrderReads(w, v); SetZOrderKeepsZExportEnable(w, v);
    (w & !Z_ORDER_MASK) | (v << 4)
  }

  lemma SetZOrderReads(w: bv32, v: bv32)
    requires v <= 0x3
    ensures ZOrder((w & !Z_ORDER_MASK) | (v << 4)) == v
  {
  }

  lemma SetZOrderKeepsZExportEnable(w: bv32, v: bv32)
    requires v <= 0x3
    ensures ZExportEnable((w & !Z_ORDER_MASK) | (v << 4)) == ZExportEnable(w)
  {
  }

  // ---- DB_RENDER_OVERRIDE ----

  /** DB_RENDER_OVERRIDE.FORCE_SHADER_Z_ORDER (bits 6..6). */
  function ForceShaderZOrder(w: bv32): (f: bv32) ensures f <= 0x1 { (w >> 6) & 0x1 }
  const FORCE_SHADER_Z_ORDER_MASK: bv32 := 0x40
  function SetForceShaderZOrder(w: bv32, v: bv32): (r: bv32)
    requires v <= 0x1
    ensures ForceShaderZOrder(r) == v
    ensures ForceStencilRead(r) == ForceStencilRead(w)
    ensures DisableViewportClamp(r) == DisableViewportClamp(w)
  {
    SetForceShaderZOrderReads(w, v); SetForceShaderZOrderKeepsForceStencilRead(w, v); SetForceShaderZOrderKeepsDisableViewportClamp(w, v);
    (w & !FORCE_SHADER_Z_ORDER_MASK) | (v << 6)
  }

  lemma SetForceShaderZOrderReads(w: bv32, v: bv32)
    requires v <= 0x1
    ensures ForceShaderZOrder((w & !FORCE_SHADER_Z_ORDER_MASK) | (v << 6)) == v
  {
  }

  lemma SetForceShaderZOrderKeepsForceStencilRead(w: bv32, v: bv32)
    requires v <= 0x1
    ensures ForceStencilRead((w & !FORCE_SHADER_Z_ORDER_MASK) | (v << 6)) == ForceStencilRead(w)
  {
  }

  lemma SetForceShaderZOrderKeepsDisableViewportClamp(w: bv32, v: bv32)
    requires v <= 0x1
    ensures DisableViewportClamp((w & !FORCE_SHADER_Z_ORDER_MASK) | (v << 6)) == DisableViewportClamp(w)
  {
  }

  /** DB_RENDER_OVERRIDE.FORCE_STENCIL_READ (bits 12..12). */
  function ForceStencilRead(w: bv32): (f: bv32) ensures f <= 0x1 { (w >> 12) & 0x1 }
  const FORCE_STENCIL_READ_MASK: bv32 := 0x1000
  function SetForceStencilRead(w: bv32, v: bv32): (r: bv32)
    requires v <= 0x1
    ensures ForceStencilRead(r) == v
    ensures ForceShaderZOrder(r) == ForceShaderZOrder(w)
    ensures DisableViewportClamp(r) == DisableViewportClamp(w)
  {
    SetForceStencilReadReads(w, v); SetForceStencilReadKeepsForceShaderZOrder(w, v); SetForceStencilReadKeepsDisableViewportClamp(w, v);
    (w & !FORCE_STENCIL_READ_MASK) | (v << 12)
  }

  lemma SetForceStencilReadReads(w: bv32, v: bv32)
    requires v <= 0x1
    ensures ForceStencilRead((w & !FORCE_STENCIL_READ_MASK) | (v << 12)) == v
  {
  }

  lemma SetForceStencilReadKeepsForceShaderZOrder(w: bv32, v: bv32)
    requires v <= 0x1
    ensures ForceShaderZOrder((w & !FORCE_STENCIL_READ_MASK) | (v << 12)) == ForceShaderZOrder(w)
  {
  }

  lemma SetForceStencilReadKeepsDisableViewportClamp(w: bv32, v: bv32)
    requires v <= 0x1
    ensures DisableViewportClamp((w & !FORCE_STENCIL_READ_MASK) | (v << 12)) == DisableViewportClamp(w)
  {
  }

  /** DB_RENDER_OVERRIDE.DISABLE_VIEWPORT_CLAMP (bits 16..16). */
  function DisableViewportClamp(w: bv32): (f: bv32) ensures f <= 0x1 { (w >> 16) & 0x1 }
  const DISABLE_VIEWPORT_CLAMP_MASK: bv32 := 0x1_0000
  function SetDisableViewportClamp(w: bv32, v: bv32): (r: bv32)
    requires v <= 0x1
    ensures DisableViewportClamp(r) == v
    ensures ForceShaderZOrder(r) == ForceShaderZOrder(w)
    ensures ForceStencilRead(r) == ForceStencilRead(w)
  {
    SetDisableViewportClampReads(w, v); SetDisableViewportClampKeepsForceShaderZOrder(w, v); SetDisableViewportClampKeepsForceStencilRead(w, v);
    (w & !DISABLE_VIEWPORT_CLAMP_MASK) | (v << 16)
  }

  lemma SetDisableViewportClampReads(w: bv32, v: bv32)
    requires v <= 0x1
    ensures DisableViewportClamp((w & !DISABLE_VIEWPORT_CLAMP_MASK) | (v << 16)) == v
  {
  }

  lemma SetDisableViewportClampKeepsForceShaderZOrder(w: bv32, v: bv32)
    requires v <= 0x1
    ensures ForceShaderZOrder((w & !DISABLE_VIEWPORT_CLAMP_MASK) | (v << 16)) == ForceShaderZOrder(w)
  {
  }

  lemma SetDisableViewportClampKeepsForceStencilRead(w: bv32, v: bv32)
    requires v <= 0x1
    ensures ForceStencilRead((w & !DISABLE_VIEWPORT_CLAMP_MASK) | (v << 16)) == ForceStencilRead(w)
  {
  }

  // ---- DB_ALPHA_TO_MASK ----

  /** DB_ALPHA_TO_MASK.ALPHA_TO_MASK_ENABLE (bits 0..0). */
  function AlphaToMaskEnable(w: bv32): (f: bv32) ensures f <= 0x1 { w & 0x1 }
  const ALPHA_TO_MASK_ENABLE_MASK: bv32 := 0x1
  function SetAlphaToMaskEnable(w: bv32, v: bv32): (r: bv32)
    requires v <= 0x1
    ensures AlphaToMaskEnable(r) == v
  {
    SetAlphaToMaskEnableReads(w, v);
    (w & !ALPHA_TO_MASK_ENABLE_MASK) | v
  }

  lemma SetAlphaToMaskEnableReads(w: bv32, v: bv32)
    requires v <= 0x1
    ensures AlphaToMaskEnable((w & !ALPHA_TO_MASK_ENABLE_MASK) | v) == v
  {
  }

  // ---- VGT_LS_HS_CONFIG ----

  /** VGT_LS_HS_CONFIG.NUM_PATCHES (bits 0..7). */
  function NumPatches(w: bv32): (f: bv32) ensures f <= 0xFF { w & 0xFF }

  /** VGT_LS_HS_CONFIG.HS_NUM_INPUT_CP (bits 8..13). */
  function HsNumInputCp(w: bv32): (f: bv32) ensures f <= 0x3F { (w >> 8) & 0x3F }

  // ---- SPI_INTERP_CONTROL_0 ----

  /** SPI_INTERP_CONTROL_0.FLAT_SHADE_ENA (bits 0..0). */
  function FlatShadeEna(w: bv32): (f: bv32) ensures f <= 0x1 { w & 0x1 }
  const FLAT_SHADE_ENA_MASK: bv32 := 0x1
  function SetFlatShadeEna(w: bv32, v: bv32): (r: bv32)
    requires v <= 0x1
    ensures FlatShadeEna(r) == v
    ensures PntSpriteEna(r) == PntSpriteEna(w)
    ensures PntSpriteTop1(r) == PntSpriteTop1(w)
  {
    SetFlatShadeEnaReads(w, v); SetFlatShadeEnaKeepsPntSpriteEna(w, v); SetFlatShadeEnaKeepsPntSpriteTop1(w, v);
    (w & !FLAT_SHADE_ENA_MASK) | v
  }

  lemma SetFlatShadeEnaReads(w: bv32, v: bv32)
    requires v <= 0x1
    ensures FlatShadeEna((w & !FLAT_SHADE_ENA_MASK) | v) == v
  {
  }

  lemma SetFlatShadeEnaKeepsPntSpriteEna(w: bv32, v: bv32)
    requires v <= 0x1
    ensures PntSpriteEna((w & !FLAT_SHADE_ENA_MASK) | v) == PntSpriteEna(w)
  {
  }

  lemma SetFlatShadeEnaKeepsPntSpriteTop1(w: bv32, v: bv32)
    requires v <= 0x1
    ensures PntSpriteTop1((w & !FLAT_SHADE_ENA_MASK) | v) == PntSpriteTop1(w)
  {
  }

  /** SPI_INTERP_CONTROL_0.PNT_SPRITE_ENA (bits 1..1). */
  function PntSpriteEna(w: bv32): (f: bv32) ensures f <= 0x1 { (w >> 1) & 0x1 }

  /** SPI_INTERP_CONTROL_0.PNT_SPRITE_TOP_1 (bits 14..14). */
  function PntSpriteTop1(w: bv32): (f: bv32) ensures f <= 0x1 { (w >> 14) & 0x1 }
  const PNT_SPRITE_TOP_1_MASK: bv32 := 0x4000
  function SetPntSpriteTop1(w: bv32, v: bv32): (r: bv32)
    requires v <= 0x1
    ensures PntSpriteTop1(r) == v
    ensures FlatShadeEna(r) == FlatShadeEna(w)
    ensures PntSpriteEna(r) == PntSpriteEna(w)
  {
    SetPntSpriteTop1Reads(w, v); SetPntSpriteTop1KeepsFlatShadeEna(w, v); SetPntSpriteTop1KeepsPntSpriteEna(w, v);
    (w & !PNT_SPRITE_TOP_1_MASK) | (v << 14)
  }

  lemma SetPntSpriteTop1Reads(w: bv32, v: bv32)
    requires v <= 0x1
    ensures PntSpriteTop1((w & !PNT_SPRITE_TOP_1_MASK) | (v << 14)) == v
  {
  }

  lemma SetPntSpriteTop1KeepsFlatShadeEna(w: bv32, v: bv32)
    requires v <= 0x1
    ensures FlatShadeEna((w & !PNT_SPRITE_TOP_1_MASK) | (v << 14)) == FlatShadeEna(w)
  {
  }

  lemma SetPntSpriteTop1KeepsPntSpriteEna(w: bv32, v: bv32)
    requires v <= 0x1
    ensures PntSpriteEna((w & !PNT_SPRITE_TOP_1_MASK) | (v << 14)) == PntSpriteEna(w)
  {
  }

  // ---- VGT_VERTEX_REUSE_BLOCK_CNTL ----

  /** VGT_VERTEX_REUSE_BLOCK_CNTL.VTX_REUSE_DEPTH (bits 0..7). */
  function VtxReuseDepth(w: bv32): (f: bv32) ensures f <= 0xFF { w & 0xFF }
  const VTX_REUSE_DEPTH_MASK: bv32 := 0xFF
  function SetVtxReuseDepth(w: bv32, v: bv32): (r: bv32)
    requires v <= 0xFF
    ensures VtxReuseDepth(r) == v
  {
    SetVtxReuseDepthReads(w, v);
    (w & !VTX_REUSE_DEPTH_MASK) | v
  }

  lemma SetVtxReuseDepthReads(w: bv32, v: bv32)
    requires v <= 0xFF
    ensures VtxReuseDepth((w & !VTX_REUSE_DEPTH_MASK) | v) == v
  {
  }

  // ---- IA_MULTI_VGT_PARAM ----

  /** IA_MULTI_VGT_PARAM.PRIMGROUP_SIZE (bits 0..15). */
  function PrimgroupSize(w: bv32): (f: bv32) ensures f <= 0xFFFF { w & 0xFFFF }
  const PRIMGROUP_SIZE_MASK: bv32 := 0xFFFF
  function SetPrimgroupSize(w: bv32, v: bv32): (r: bv32)
    requires v <= 0xFFFF
    ensures PrimgroupSize(r) == v
    ensures PartialVsWaveOn(r) == PartialVsWaveOn(w)
    ensures SwitchOnEop(r) == SwitchOnEop(w)
    ensures PartialEsWaveOn(r) == PartialEsWaveOn(w)
    ensures SwitchOnEoi(r) == SwitchOnEoi(w)
    ensures WdSwitchOnEop(r) == WdSwitchOnEop(w)
    ensures MaxPrimgrpInWave(r) == MaxPrimgrpInWave(w)
  {
    SetPrimgroupSizeReads(w, v); SetPrimgroupSizeKeepsPartialVsWaveOn(w, v); SetPrimgroupSizeKeepsSwitchOnEop(w, v); SetPrimgroupSizeKeepsPartialEsWaveOn(w, v); SetPrimgroupSizeKeepsSwitchOnEoi(w, v); SetPrimgroupSizeKeepsWdSwitchOnEop(w, v); SetPrimgroupSizeKeepsMaxPrimgrpInWave(w, v);
    (w & !PRIMGROUP_SIZE_MASK) | v
  }

  lemma SetPrimgroupSizeReads(w: bv32, v: bv32)
    requires v <= 0xFFFF
    ensures PrimgroupSize((w & !PRIMGROUP_SIZE_MASK) | v) == v
  {
  }

  lemma SetPrimgroupSizeKeepsPartialVsWaveOn(w: bv32, v: bv32)
    requires v <= 0xFFFF
    ensures PartialVsWaveOn((w & !PRIMGROUP_SIZE_MASK) | v) == PartialVsWaveOn(w)
  {
  }

  lemma SetPrimgroupSizeKeepsSwitchOnEop(w: bv32, v: bv32)
    requires v <= 0xFFFF
    ensures SwitchOnEop((w & !PRIMGROUP_SIZE_MASK) | v) == SwitchOnEop(w)
  {
  }

  lemma SetPrimgroupSizeKeepsPartialEsWaveOn(w: bv32, v: bv32)
    requires v <= 0xFFFF
    ensures PartialEsWaveOn((w & !PRIMGROUP_SIZE_MASK) | v) == PartialEsWaveOn(w)
  {
  }

  lemma SetPrimgroupSizeKeepsSwitchOnEoi(w: bv32, v: bv32)
    requires v <= 0xFFFF
    ensures SwitchOnEoi((w & !PRIMGROUP_SIZE_MASK) | v) == SwitchOnEoi(w)
  {
  }

  lemma SetPrimgroupSizeKeepsWdSwitchOnEop(w: bv32, v: bv32)
    requires v <= 0xFFFF
    ensures WdSwitchOnEop((w & !PRIMGROUP_SIZE_MASK) | v) == WdSwitchOnEop(w)
  {
  }

  lemma SetPrimgroupSizeKeepsMaxPrimgrpInWave(w: bv32, v: bv32)
    requires v <= 0xFFFF
    ensures MaxPrimgrpInWave((w & !PRIMGROUP_SIZE_MASK) | v) == MaxPrimgrpInWave(w)
  {
  }

  /** IA_MULTI_VGT_PARAM.PARTIAL_VS_WAVE_ON (bits 16..16). */
  function PartialVsWaveOn(w: bv32): (f: bv32) ensures f <= 0x1 { (w >> 16) & 0x1 }
  const PARTIAL_VS_WAVE_ON_MASK: bv32 := 0x1_0000
  function SetPartialVsWaveOn(w: bv32, v: bv32): (r: bv32)
    requires v <= 0x1
    ensures PartialVsWaveOn(r) == v
    ensures PrimgroupSize(r) == PrimgroupSize(w)
    ensures SwitchOnEop(r) == SwitchOnEop(w)
    ensures PartialEsWaveOn(r) == PartialEsWaveOn(w)
    ensures SwitchOnEoi(r) == SwitchOnEoi(w)
    ensures WdSwitchOnEop(r) == WdSwitchOnEop(w)
    ensures MaxPrimgrpInWave(r) == MaxPrimgrpInWave(w)
  {
    SetPartialVsWaveOnReads(w, v); SetPartialVsWaveOnKeepsPrimgroupSize(w, v); SetPartialVsWaveOnKeepsSwitchOnEop(w, v); SetPartialVsWaveOnKeepsPartialEsWaveOn(w, v); SetPartialVsWaveOnKeepsSwitchOnEoi(w, v); SetPartialVsWaveOnKeepsWdSwitchOnEop(w, v); SetPartialVsWaveOnKeepsMaxPrimgrpInWave(w, v);
    (w & !PARTIAL_VS_WAVE_ON_MASK) | (v << 16)
  }

  lemma SetPartialVsWaveOnReads(w: bv32, v: bv32)
    requires v <= 0x1
    ensures PartialVsWaveOn((w & !PARTIAL_VS_WAVE_ON_MASK) | (v << 16)) == v
  {
  }

  lemma SetPartialVsWaveOnKeepsPrimgroupSize(w: bv32, v: bv32)
    requires v <= 0x1
    ensures PrimgroupSize((w & !PARTIAL_VS_WAVE_ON_MASK) | (v << 16)) == PrimgroupSize(w)
  {
  }

  lemma SetPartialVsWaveOnKeepsSwitchOnEop(w: bv32, v: bv32)
    requires v <= 0x1
    ensures SwitchOnEop((w & !PARTIAL_VS_WAVE_ON_MASK) | (v << 16)) == SwitchOnEop(w)
  {
  }

  lemma SetPartialVsWaveOnKeepsPartialEsWaveOn(w: bv32, v: bv32)
    requires v <= 0x1
    ensures PartialEsWaveOn((w & !PARTIAL_VS_WAVE_ON_MASK) | (v << 16)) == PartialEsWaveOn(w)
  {
  }

  lemma SetPartialVsWaveOnKeepsSwitchOnEoi(w: bv32, v: bv32)
    requires v <= 0x1
    ensures SwitchOnEoi((w & !PARTIAL_VS_WAVE_ON_MASK) | (v << 16)) == SwitchOnEoi(w)
  {
  }

  lemma SetPartialVsWaveOnKeepsWdSwitchOnEop(w: bv32, v: bv32)
    requires v <= 0x1
    ensures WdSwitchOnEop((w & !PARTIAL_VS_WAVE_ON_MASK) | (v << 16)) == WdSwitchOnEop(w)
  {
  }

  lemma SetPartialVsWaveOnKeepsMaxPrimgrpInWave(w: bv32, v: bv32)
    requires v <= 0x1
    ensures MaxPrimgrpInWave((w & !PARTIAL_VS_WAVE_ON_MASK) | (v << 16)) == MaxPrimgrpInWave(w)
  {
  }

  /** IA_MULTI_VGT_PARAM.SWITCH_ON_EOP (bits 17..17). */
  function SwitchOnEop(w: bv32): (f: bv32) ensures f <= 0x1 { (w >> 17) & 0x1 }
  const SWITCH_ON_EOP_MASK: bv32 := 0x2_0000
  function SetSwitchOnEop(w: bv32, v: bv32): (r: bv32)
    requires v <= 0x1
    ensures SwitchOnEop(r) == v
    ensures PrimgroupSize(r) == PrimgroupSize(w)
    ensures PartialVsWaveOn(r) == PartialVsWaveOn(w)
    ensures PartialEsWaveOn(r) == PartialEsWaveOn(w)
    ensures SwitchOnEoi(r) == SwitchOnEoi(w)
    ensures WdSwitchOnEop(r) == WdSwitchOnEop(w)
    ensures MaxPrimgrpInWave(r) == MaxPrimgrpInWave(w)
  {
    SetSwitchOnEopReads(w, v); SetSwitchOnEopKeepsPrimgroupSize(w, v); SetSwitchOnEopKeepsPartialVsWaveOn(w, v); SetSwitchOnEopKeepsPartialEsWaveOn(w, v); SetSwitchOnEopKeepsSwitchOnEoi(w, v); SetSwitchOnEopKeepsWdSwitchOnEop(w, v); SetSwitchOnEopKeepsMaxPrimgrpInWave(w, v);
    (w & !SWITCH_ON_EOP_MASK) | (v << 17)
  }

  lemma SetSwitchOnEopReads(w: bv32, v: bv32)
    requires v <= 0x1
    ensures SwitchOnEop((w & !SWITCH_ON_EOP_MASK) | (v << 17)) == v
  {
  }

  lemma SetSwitchOnEopKeepsPrimgroupSize(w: bv32, v: bv32)
    requires v <= 0x1
    ensures PrimgroupSize((w & !SWITCH_ON_EOP_MASK) | (v << 17)) == PrimgroupSize(w)
  {
  }

  lemma SetSwitchOnEopKeepsPartialVsWaveOn(w: bv32, v: bv32)
    requires v <= 0x1
    ensures PartialVsWaveOn((w & !SWITCH_ON_EOP_MASK) | (v << 17)) == PartialVsWaveOn(w)
  {
  }

  lemma SetSwitchOnEopKeepsPartialEsWaveOn(w: bv32, v: bv32)
    requires v <= 0x1
    ensures PartialEsWaveOn((w & !SWITCH_ON_EOP_MASK) | (v << 17)) == PartialEsWaveOn(w)
  {
  }

  lemma SetSwitchOnEopKeepsSwitchOnEoi(w: bv32, v: bv32)
    requires v <= 0x1
    ensures SwitchOnEoi((w & !SWITCH_ON_EOP_MASK) | (v << 17)) == SwitchOnEoi(w)
  {
  }

  lemma SetSwitchOnEopKeepsWdSwitchOnEop(w: bv32, v: bv32)
    requires v <= 0x1
    ensures WdSwitchOnEop((w & !SWITCH_ON_EOP_MASK) | (v << 17)) == WdSwitchOnEop(w)
  {
  }

  lemma SetSwitchOnEopKeepsMaxPrimgrpInWave(w: bv32, v: bv32)
    requires v <= 0x1
    ensures MaxPrimgrpInWave((w & !SWITCH_ON_EOP_MASK) | (v << 17)) == MaxPrimgrpInWave(w)
  {
  }

  /** IA_MULTI_VGT_PARAM.PARTIAL_ES_WAVE_ON (bits 18..18). */
  function PartialEsWaveOn(w: bv32): (f: bv32) ensures f <= 0x1 { (w >> 18) & 0x1 }
  const PARTIAL_ES_WAVE_ON_MASK: bv32 := 0x4_0000
  function SetPartialEsWaveOn(w: bv32, v: bv32): (r: bv32)
    requires v <= 0x1
    ensures PartialEsWaveOn(r) == v
    ensures PrimgroupSize(r) == PrimgroupSize(w)
    ensures PartialVsWaveOn(r) == PartialVsWaveOn(w)
    ensures SwitchOnEop(r) == SwitchOnEop(w)
    ensures SwitchOnEoi(r) == SwitchOnEoi(w)
    ensures WdSwitchOnEop(r) == WdSwitchOnEop(w)
    ensures MaxPrimgrpInWave(r) == MaxPrimgrpInWave(w)
  {
    SetPartialEsWaveOnReads(w, v); SetPartialEsWaveOnKeepsPrimgroupSize(w, v); SetPartialEsWaveOnKeepsPartialVsWaveOn(w, v); SetPartialEsWaveOnKeepsSwitchOnEop(w, v); SetPartialEsWaveOnKeepsSwitchOnEoi(w, v); SetPartialEsWaveOnKeepsWdSwitchOnEop(w, v); SetPartialEsWaveOnKeepsMaxPrimgrpInWave(w, v);
    (w & !PARTIAL_ES_WAVE_ON_MASK) | (v << 18)
  }

  lemma SetPartialEsWaveOnReads(w: bv32, v: bv32)
    requires v <= 0x1
    ensures PartialEsWaveOn((w & !PARTIAL_ES_WAVE_ON_MASK) | (v << 18)) == v
  {
  }

  lemma SetPartialEsWaveOnKeepsPrimgroupSize(w: bv32, v: bv32)
    requires v <= 0x1
    ensures PrimgroupSize((w & !PARTIAL_ES_WAVE_ON_MASK) | (v << 18)) == PrimgroupSize(w)
  {
  }

  lemma SetPartialEsWaveOnKeepsPartialVsWaveOn(w: bv32, v: bv32)
    requires v <= 0x1
    ensures PartialVsWaveOn((w & !PARTIAL_ES_WAVE_ON_MASK) | (v << 18)) == PartialVsWaveOn(w)
  {
  }

  lemma SetPartialEsWaveOnKeepsSwitchOnEop(w: bv32, v: bv32)
    requires v <= 0x1
    ensures SwitchOnEop((w & !PARTIAL_ES_WAVE_ON_MASK) | (v << 18)) == SwitchOnEop(w)
  {
  }

  lemma SetPartialEsWaveOnKeepsSwitchOnEoi(w: bv32, v: bv32)
    requires v <= 0x1
    ensures SwitchOnEoi((w & !PARTIAL_ES_WAVE_ON_MASK) | (v << 18)) == SwitchOnEoi(w)
  {
  }

  lemma SetPartialEsWaveOnKeepsWdSwitchOnEop(w: bv32, v: bv32)
    requires v <= 0x1
    ensures WdSwitchOnEop((w & !PARTIAL_ES_WAVE_ON_MASK) | (v << 18)) == WdSwitchOnEop(w)
  {
  }

  lemma SetPartialEsWaveOnKeepsMaxPrimgrpInWave(w: bv32, v: bv32)
    requires v <= 0x1
    ensures MaxPrimgrpInWave((w & !PARTIAL_ES_WAVE_ON_MASK) | (v << 18)) == MaxPrimgrpInWave(w)
  {
  }

  /** IA_MULTI_VGT_PARAM.SWITCH_ON_EOI (bits 19..19). */
  function SwitchOnEoi(w: bv32): (f: bv32) ensures f <= 0x1 { (w >> 19) & 0x1 }
  const SWITCH_ON_EOI_MASK: bv32 := 0x8_0000
  function SetSwitchOnEoi(w: bv32, v: bv32): (r: bv32)
    requires v <= 0x1
    ensures SwitchOnEoi(r) == v
    ensures PrimgroupSize(r) == PrimgroupSize(w)
    ensures PartialVsWaveOn(r) == PartialVsWaveOn(w)
    ensures SwitchOnEop(r) == SwitchOnEop(w)
    ensures PartialEsWaveOn(r) == PartialEsWaveOn(w)
    ensures WdSwitchOnEop(r) == WdSwitchOnEop(w)
    ensures MaxPrimgrpInWave(r) == MaxPrimgrpInWave(w)
  {
    SetSwitchOnEoiReads(w, v); SetSwitchOnEoiKeepsPrimgroupSize(w, v); SetSwitchOnEoiKeepsPartialVsWaveOn(w, v); SetSwitchOnEoiKeepsSwitchOnEop(w, v); SetSwitchOnEoiKeepsPartialEsWaveOn(w, v); SetSwitchOnEoiKeepsWdSwitchOnEop(w, v); SetSwitchOnEoiKeepsMaxPrimgrpInWave(w, v);
    (w & !SWITCH_ON_EOI_MASK) | (v << 19)
  }

  lemma SetSwitchOnEoiReads(w: bv32, v: bv32)
    requires v <= 0x1
    ensures SwitchOnEoi((w & !SWITCH_ON_EOI_MASK) | (v << 19)) == v
  {
  }

  lemma SetSwitchOnEoiKeepsPrimgroupSize(w: bv32, v: bv32)
    requires v <= 0x1
    ensures PrimgroupSize((w & !SWITCH_ON_EOI_MASK) | (v << 19)) == PrimgroupSize(w)
  {
  }

  lemma SetSwitchOnEoiKeepsPartialVsWaveOn(w: bv32, v: bv32)
    requires v <= 0x1
    ensures PartialVsWaveOn((w & !SWITCH_ON_EOI_MASK) | (v << 19)) == PartialVsWaveOn(w)
  {
  }

  lemma SetSwitchOnEoiKeepsSwitchOnEop(w: bv32, v: bv32)
    requires v <= 0x1
    ensures SwitchOnEop((w & !SWITCH_ON_EOI_MASK) | (v << 19)) == SwitchOnEop(w)
  {
  }

  lemma SetSwitchOnEoiKeepsPartialEsWaveOn(w: bv32, v: bv32)
    requires v <= 0x1
    ensures PartialEsWaveOn((w & !SWITCH_ON_EOI_MASK) | (v << 19)) == PartialEsWaveOn(w)
  {
  }

  lemma SetSwitchOnEoiKeepsWdSwitchOnEop(w: bv32, v: bv32)
    requires v <= 0x1
    ensures WdSwitchOnEop((w & !SWITCH_ON_EOI_MASK) | (v << 19)) == WdSwitchOnEop(w)
  {
  }

  lemma SetSwitchOnEoiKeepsMaxPrimgrpInWave(w: bv32, v: bv32)
    requires v <= 0x1
    ensures MaxPrimgrpInWave((w & !SWITCH_ON_EOI_MASK) | (v << 19)) == MaxPrimgrpInWave(w)
  {
  }

  /** IA_MULTI_VGT_PARAM.WD_SWITCH_ON_EOP (bits 20..20). */
  function WdSwitchOnEop(w: bv32): (f: bv32) ensures f <= 0x1 { (w >> 20) & 0x1 }
  const WD_SWITCH_ON_EOP_MASK: bv32 := 0x10_0000
  function SetWdSwitchOnEop(w: bv32, v: bv32): (r: bv32)
    requires v <= 0x1
    ensures WdSwitchOnEop(r) == v
    ensures PrimgroupSize(r) == PrimgroupSize(w)
    ensures PartialVsWaveOn(r) == PartialVsWaveOn(w)
    ensures SwitchOnEop(r) == SwitchOnEop(w)
    ensures PartialEsWaveOn(r) == PartialEsWaveOn(w)
    ensures SwitchOnEoi(r) == SwitchOnEoi(w)
    ensures MaxPrimgrpInWave(r) == MaxPrimgrpInWave(w)
  {
    SetWdSwitchOnEopReads(w, v); SetWdSwitchOnEopKeepsPrimgroupSize(w, v); SetWdSwitchOnEopKeepsPartialVsWaveOn(w, v); SetWdSwitchOnEopKeepsSwitchOnEop(w, v); SetWdSwitchOnEopKeepsPartialEsWaveOn(w, v); SetWdSwitchOnEopKeepsSwitchOnEoi(w, v); SetWdSwitchOnEopKeepsMaxPrimgrpInWave(w, v);
    (w & !WD_SWITCH_ON_EOP_MASK) | (v << 20)
  }

  lemma SetWdSwitchOnEopReads(w: bv32, v: bv32)
    requires v <= 0x1
    ensures WdSwitchOnEop((w & !WD_SWITCH_ON_EOP_MASK) | (v << 20)) == v
  {
  }

  lemma SetWdSwitchOnEopKeepsPrimgroupSize(w: bv32, v: bv32)
    requires v <= 0x1
    ensures PrimgroupSize((w & !WD_SWITCH_ON_EOP_MASK) | (v << 20)) == PrimgroupSize(w)
  {
  }

  lemma SetWdSwitchOnEopKeepsPartialVsWaveOn(w: bv32, v: bv32)
    requires v <= 0x1
    ensures PartialVsWaveOn((w & !WD_SWITCH_ON_EOP_MASK) | (v << 20)) == PartialVsWaveOn(w)
  {
  }

  lemma SetWdSwitchOnEopKeepsSwitchOnEop(w: bv32, v: bv32)
    requires v <= 0x1
    ensures SwitchOnEop((w & !WD_SWITCH_ON_EOP_MASK) | (v << 20)) == SwitchOnEop(w)
  {
  }

  lemma SetWdSwitchOnEopKeepsPartialEsWaveOn(w: bv32, v: bv32)
    requires v <= 0x1
    ensures PartialEsWaveOn((w & !WD_SWITCH_ON_EOP_MASK) | (v << 20)) == PartialEsWaveOn(w)
  {
  }

  lemma SetWdSwitchOnEopKeepsSwitchOnEoi(w: bv32, v: bv32)
    requires v <= 0x1
    ensures SwitchOnEoi((w & !WD_SWITCH_ON_EOP_MASK) | (v << 20)) == SwitchOnEoi(w)
  {
  }

  lemma SetWdSwitchOnEopKeepsMaxPrimgrpInWave(w: bv32, v: bv32)
    requires v <= 0x1
    ensures MaxPrimgrpInWave((w & !WD_SWITCH_ON_EOP_MASK) | (v << 20)) == MaxPrimgrpInWave(w)
  {
  }

  /** IA_MULTI_VGT_PARAM.MAX_PRIMGRP_IN_WAVE (bits 28..31). */
  function MaxPrimgrpInWave(w: bv32): (f: bv32) ensures f <= 0xF { (w >> 28) & 0xF }
  const MAX_PRIMGRP_IN_WAVE_MASK: bv32 := 0xF000_0000
  function SetMaxPrimgrpInWave(w: bv32, v: bv32): (r: bv32)
    requires v <= 0xF
    ensures MaxPrimgrpInWave(r) == v
    ensures PrimgroupSize(r) == PrimgroupSize(w)
    ensures PartialVsWaveOn(r) == PartialVsWaveOn(w)
    ensures SwitchOnEop(r) == SwitchOnEop(w)
    ensures PartialEsWaveOn(r) == PartialEsWaveOn(w)
    ensures SwitchOnEoi(r) == SwitchOnEoi(w)
    ensures WdSwitchOnEop(r) == WdSwitchOnEop(w)
  {
    SetMaxPrimgrpInWaveReads(w, v); SetMaxPrimgrpInWaveKeepsPrimgroupSize(w, v); SetMaxPrimgrpInWaveKeepsPartialVsWaveOn(w, v); SetMaxPrimgrpInWaveKeepsSwitchOnEop(w, v); SetMaxPrimgrpInWaveKeepsPartialEsWaveOn(w, v); SetMaxPrimgrpInWaveKeepsSwitchOnEoi(w, v); SetMaxPrimgrpInWaveKeepsWdSwitchOnEop(w, v);
    (w & !MAX_PRIMGRP_IN_WAVE_MASK) | (v << 28)
  }

  lemma SetMaxPrimgrpInWaveReads(w: bv32, v: bv32)
    requires v <= 0xF
    ensures MaxPrimgrpInWave((w & !MAX_PRIMGRP_IN_WAVE_MASK) | (v << 28)) == v
  {
  }

  lemma SetMaxPrimgrpInWaveKeepsPrimgroupSize(w: bv32, v: bv32)
    requires v <= 0xF
    ensures PrimgroupSize((w & !MAX_PRIMGRP_IN_WAVE_MASK) | (v << 28)) == PrimgroupSize(w)
  {
  }

  lemma SetMaxPrimgrpInWaveKeepsPartialVsWaveOn(w: bv32, v: bv32)
    requires v <= 0xF
    ensures PartialVsWaveOn((w & !MAX_PRIMGRP_IN_WAVE_MASK) | (v << 28)) == PartialVsWaveOn(w)
  {
  }

  lemma SetMaxPrimgrpInWaveKeepsSwitchOnEop(w: bv32, v: bv32)
    requires v <= 0xF
    ensures SwitchOnEop((w & !MAX_PRIMGRP_IN_WAVE_MASK) | (v << 28)) == SwitchOnEop(w)
  {
  }

  lemma SetMaxPrimgrpInWaveKeepsPartialEsWaveOn(w: bv32, v: bv32)
    requires v <= 0xF
    ensures PartialEsWaveOn((w & !MAX_PRIMGRP_IN_WAVE_MASK) | (v << 28)) == PartialEsWaveOn(w)
  {
  }

  lemma SetMaxPrimgrpInWaveKeepsSwitchOnEoi(w: bv32, v: bv32)
    requires v <= 0xF
    ensures SwitchOnEoi((w & !MAX_PRIMGRP_IN_WAVE_MASK) | (v << 28)) == SwitchOnEoi(w)
  {
  }

  lemma SetMaxPrimgrpInWaveKeepsWdSwitchOnEop(w: bv32, v: bv32)
    requires v <= 0xF
    ensures WdSwitchOnEop((w & !MAX_PRIMGRP_IN_WAVE_MASK) | (v << 28)) == WdSwitchOnEop(w)
  {
  }

  // ---- CB_COLOR_CONTROL ----

  /** CB_COLOR_CONTROL.DISABLE_DUAL_QUAD (bits 0..0). */
  function DisableDualQuad(w: bv32): (f: bv32) ensures f <= 0x1 { w & 0x1 }
  const DISABLE_DUAL_QUAD_MASK: bv32 := 0x1
  function SetDisableDualQuad(w: bv32, v: bv32): (r: bv32)
    requires v <= 0x1
    ensures DisableDualQuad(r) == v
    ensures CbMode(r) == CbMode(w)
    ensures Rop3Field(r) == Rop3Field(w)
  {
    SetDisableDualQuadReads(w, v); SetDisableDualQuadKeepsCbMode(w, v); SetDisableDualQuadKeepsRop3Field(w, v);
    (w & !DISABLE_DUAL_QUAD_MASK) | v
  }

  lemma SetDisableDualQuadReads(w: bv32, v: bv32)
    requires v <= 0x1
    ensures DisableDualQuad((w & !DISABLE_DUAL_QUAD_MASK) | v) == v
  {
  }

  lemma SetDisableDualQuadKeepsCbMode(w: bv32, v: bv32)
    requires v <= 0x1
    ensures CbMode((w & !DISABLE_DUAL_QUAD_MASK) | v) == CbMode(w)
  {
  }

  lemma SetDisableDualQuadKeepsRop3Field(w: bv32, v: bv32)
    requires v <= 0x1
    ensures Rop3Field((w & !DISABLE_DUAL_QUAD_MASK) | v) == Rop3Field(w)
  {
  }

  /** CB_COLOR_CONTROL.MODE (bits 4..6). */
  function CbMode(w: bv32): (f: bv32) ensures f <= 0x7 { (w >> 4) & 0x7 }
  const CB_MODE_MASK: bv32 := 0x70
  function SetCbMode(w: bv32, v: bv32): (r: bv32)
    requires v <= 0x7
    ensures CbMode(r) == v
    ensures DisableDualQuad(r) == DisableDualQuad(w)
    ensures Rop3Field(r) == Rop3Field(w)
  {
    SetCbModeReads(w, v); SetCbModeKeepsDisableDualQuad(w, v); SetCbModeKeepsRop3Field(w, v);
    (w & !CB_MODE_MASK) | (v << 4)
  }

  lemma SetCbModeReads(w: bv32, v: bv32)
    requires v <= 0x7
    ensures CbMode((w & !CB_MODE_MASK) | (v << 4)) == v
  {
  }

  lemma SetCbModeKeepsDisableDualQuad(w: bv32, v: bv32)
    requires v <= 0x7
    ensures DisableDualQuad((w & !CB_MODE_MASK) | (v << 4)) == DisableDualQuad(w)
  {
  }

  lemma SetCbModeKeepsRop3Field(w: bv32, v: bv32)
    requires v <= 0x7
    ensures Rop3Field((w & !CB_MODE_MASK) | (v << 4)) == Rop3Field(w)
  {
  }

  /** CB_COLOR_CONTROL.ROP3 (bits 16..23). */
  function Rop3Field(w: bv32): (f: bv32) ensures f <= 0xFF { (w >> 16) & 0xFF }
  const ROP3_MASK: bv32 := 0xFF_0000
  function SetRop3Field(w: bv32, v: bv32): (r: bv32)
    requires v <= 0xFF
    ensures Rop3Field(r) == v
    ensures DisableDualQuad(r) == DisableDualQuad(w)
    ensures CbMode(r) == CbMode(w)
  {
    SetRop3FieldReads(w, v); SetRop3FieldKeepsDisableDualQuad(w, v); SetRop3FieldKeepsCbMode(w, v);
    (w & !ROP3_MASK) | (v << 16)
  }

  lemma SetRop3FieldReads(w: bv32, v: bv32)
    requires v <= 0xFF
    ensures Rop3Field((w & !ROP3_MASK) | (v << 16)) == v
  {
  }

  lemma SetRop3FieldKeepsDisableDualQuad(w: bv32, v: bv32)
    requires v <= 0xFF
    ensures DisableDualQuad((w & !ROP3_MASK) | (v << 16)) == DisableDualQuad(w)
  {
  }

  lemma SetRop3FieldKeepsCbMode(w: bv32, v: bv32)
    requires v <= 0xFF
    ensures CbMode((w & !ROP3_MASK) | (v << 16)) == CbMode(w)
  {
  }

  // ---- PA_SC_LINE_CNTL ----

  /** PA_SC_LINE_CNTL.EXPAND_LINE_WIDTH (bits 9..9). */
  function ExpandLineWidth(w: bv32): (f: bv32) ensures f <= 0x1 { (w >> 9) & 0x1 }
  const EXPAND_LINE_WIDTH_MASK: bv32 := 0x200
  function SetExpandLineWidth(w: bv32, v: bv32): (r: bv32)
    requires v <= 0x1
    ensures ExpandLineWidth(r) == v
    ensures LastPixel(r) == LastPixel(w)
    ensures PerpendicularEndcapEna(r) == PerpendicularEndcapEna(w)
    ensures Dx10DiamondTestEna(r) == Dx10DiamondTestEna(w)
  {
    SetExpandLineWidthReads(w, v); SetExpandLineWidthKeepsLastPixel(w, v); SetExpandLineWidthKeepsPerpendicularEndcapEna(w, v); SetExpandLineWidthKeepsDx10DiamondTestEna(w, v);
    (w & !EXPAND_LINE_WIDTH_MASK) | (v << 9)
  }

  lemma SetExpandLineWidthReads(w: bv32, v: bv32)
    requires v <= 0x1
    ensures ExpandLineWidth((w & !EXPAND_LINE_WIDTH_MASK) | (v << 9)) == v
  {
  }

  lemma SetExpandLineWidthKeepsLastPixel(w: bv32, v: bv32)
    requires v <= 0x1
    ensures LastPixel((w & !EXPAND_LINE_WIDTH_MASK) | (v << 9)) == LastPixel(w)
  {
  }

  lemma SetExpandLineWidthKeepsPerpendicularEndcapEna(w: bv32, v: bv32)
    requires v <= 0x1
    ensures PerpendicularEndcapEna((w & !EXPAND_LINE_WIDTH_MASK) | (v << 9)) == PerpendicularEndcapEna(w)
  {
  }

  lemma SetExpandLineWidthKeepsDx10DiamondTestEna(w: bv32, v: bv32)
    requires v <= 0x1
    ensures Dx10DiamondTestEna((w & !EXPAND_LINE_WIDTH_MASK) | (v << 9)) == Dx10DiamondTestEna(w)
  {
  }

  /** PA_SC_LINE_CNTL.LAST_PIXEL (bits 10..10). */
  function LastPixel(w: bv32): (f: bv32) ensures f <= 0x1 { (w >> 10) & 0x1 }
  const LAST_PIXEL_MASK: bv32 := 0x400
  function SetLastPixel(w: bv32, v: bv32): (r: bv32)
    requires v <= 0x1
    ensures LastPixel(r) == v
    ensures ExpandLineWidth(r) == ExpandLineWidth(w)
    ensures PerpendicularEndcapEna(r) == PerpendicularEndcapEna(w)
    ensures Dx10DiamondTestEna(r) == Dx10DiamondTestEna(w)
  {
    SetLastPixelReads(w, v); SetLastPixelKeepsExpandLineWidth(w, v); SetLastPixelKeepsPerpendicularEndcapEna(w, v); SetLastPixelKeepsDx10DiamondTestEna(w, v);
    (w & !LAST_PIXEL_MASK) | (v << 10)
  }

  lemma SetLastPixelReads(w: bv32, v: bv32)
    requires v <= 0x1
    ensures LastPixel((w & !LAST_PIXEL_MASK) | (v << 10)) == v
  {
  }

  lemma SetLastPixelKeepsExpandLineWidth(w: bv32, v: bv32)
    requires v <= 0x1
    ensures ExpandLineWidth((w & !LAST_PIXEL_MASK) | (v << 10)) == ExpandLineWidth(w)
  {
  }

  lemma SetLastPixelKeepsPerpendicularEndcapEna(w: bv32, v: bv32)
    requires v <= 0x1
    ensures PerpendicularEndcapEna((w & !LAST_PIXEL_MASK) | (v << 10)) == PerpendicularEndcapEna(w)
  {
  }

  lemma SetLastPixelKeepsDx10DiamondTestEna(w: bv32, v: bv32)
    requires v <= 0x1
    ensures Dx10DiamondTestEna((w & !LAST_PIXEL_MASK) | (v << 10)) == Dx10DiamondTestEna(w)
  {
  }

  /** PA_SC_LINE_CNTL.PERPENDICULAR_ENDCAP_ENA (bits 11..11). */
  function PerpendicularEndcapEna(w: bv32): (f: bv32) ensures f <= 0x1 { (w >> 11) & 0x1 }
  const PERPENDICULAR_ENDCAP_ENA_MASK: bv32 := 0x800
  function SetPerpendicularEndcapEna(w: bv32, v: bv32): (r: bv32)
    requires v <= 0x1
    ensures PerpendicularEndcapEna(r) == v
    ensures ExpandLineWidth(r) == ExpandLineWidth(w)
    ensures LastPixel(r) == LastPixel(w)
    ensures Dx10DiamondTestEna(r) == Dx10DiamondTestEna(w)
  {
    SetPerpendicularEndcapEnaReads(w, v); SetPerpendicularEndcapEnaKeepsExpandLineWidth(w, v); SetPerpendicularEndcapEnaKeepsLastPixel(w, v); SetPerpendicularEndcapEnaKeepsDx10DiamondTestEna(w, v);
    (w & !PERPENDICULAR_ENDCAP_ENA_MASK) | (v << 11)
  }

  lemma SetPerpendicularEndcapEnaReads(w: bv32, v: bv32)
    requires v <= 0x1
    ensures PerpendicularEndcapEna((w & !PERPENDICULAR_ENDCAP_ENA_MASK) | (v << 11)) == v
  {
  }

  lemma SetPerpendicularEndcapEnaKeepsExpandLineWidth(w: bv32, v: bv32)
    requires v <= 0x1
    ensures ExpandLineWidth((w & !PERPENDICULAR_ENDCAP_ENA_MASK) | (v << 11)) == ExpandLineWidth(w)
  {
  }

  lemma SetPerpendicularEndcapEnaKeepsLastPixel(w: bv32, v: bv32)
    requires v <= 0x1
    ensures LastPixel((w & !PERPENDICULAR_ENDCAP_ENA_MASK) | (v << 11)) == LastPixel(w)
  {
  }

  lemma SetPerpendicularEndcapEnaKeepsDx10DiamondTestEna(w: bv32, v: bv32)
    requires v <= 0x1
    ensures Dx10DiamondTestEna((w & !PERPENDICULAR_ENDCAP_ENA_MASK) | (v << 11)) == Dx10DiamondTestEna(w)
  {
  }

  /** PA_SC_LINE_CNTL.DX10_DIAMOND_TEST_ENA (bits 12..12). */
  function Dx10DiamondTestEna(w: bv32): (f: bv32) ensures f <= 0x1 { (w >> 12) & 0x1 }
  const DX10_DIAMOND_TEST_ENA_MASK: bv32 := 0x1000
  function SetDx10DiamondTestEna(w: bv32, v: bv32): (r: bv32)
    requires v <= 0x1
    ensures Dx10DiamondTestEna(r) == v
    ensures ExpandLineWidth(r) == ExpandLineWidth(w)
    ensures LastPixel(r) == LastPixel(w)
    ensures PerpendicularEndcapEna(r) == PerpendicularEndcapEna(w)
  {
    SetDx10DiamondTestEnaReads(w, v); SetDx10DiamondTestEnaKeepsExpandLineWidth(w, v); SetDx10DiamondTestEnaKeepsLastPixel(w, v); SetDx10DiamondTestEnaKeepsPerpendicularEndcapEna(w, v);
    (w & !DX10_DIAMOND_TEST_ENA_MASK) | (v << 12)
  }

  lemma SetDx10DiamondTestEnaReads(w: bv32, v: bv32)
    requires v <= 0x1
    ensures Dx10DiamondTestEna((w & !DX10_DIAMOND_TEST_ENA_MASK) | (v << 12)) == v
  {
  }

  lemma SetDx10DiamondTestEnaKeepsExpandLineWidth(w: bv32, v: bv32)
    requires v <= 0x1
    ensures ExpandLineWidth((w & !DX10_DIAMOND_TEST_ENA_MASK) | (v << 12)) == ExpandLineWidth(w)
  {
  }

  lemma SetDx10DiamondTestEnaKeepsLastPixel(w: bv32, v: bv32)
    requires v <= 0x1
    ensures LastPixel((w & !DX10_DIAMOND_TEST_ENA_MASK) | (v << 12)) == LastPixel(w)
  {
  }

  lemma SetDx10DiamondTestEnaKeepsPerpendicularEndcapEna(w: bv32, v: bv32)
    requires v <= 0x1
    ensures PerpendicularEndcapEna((w & !DX10_DIAMOND_TEST_ENA_MASK) | (v << 12)) == PerpendicularEndcapEna(w)
  {
  }

  // ---- SPI_SHADER_PGM_RSRC1_VS ----

  /** SPI_SHADER_PGM_RSRC1_VS.VGPRS (bits 0..5). */
  function Vgprs(w: bv32): (f: bv32) ensures f <= 0x3F { w & 0x3F }

  /** SPI_SHADER_PGM_RSRC1_VS.SGPRS (bits 6..9). */
  function Sgprs(w: bv32): (f: bv32) ensures f <= 0xF { (w >> 6) & 0xF }

  // ---- SPI_SHADER_PGM_RSRC2_VS / SPI_SHADER_PGM_RSRC2_PS ----

  /** SPI_SHADER_PGM_RSRC2_VS.SCRATCH_EN (bits 0..0). */
  function ScratchEn(w: bv32): (f: bv32) ensures f <= 0x1 { w & 0x1 }

  // ---- SPI_SHADER_LATE_ALLOC_VS ----

  /** SPI_SHADER_LATE_ALLOC_VS.LIMIT (bits 0..5). */
  function LateAllocLimit(w: bv32): (f: bv32) ensures f <= 0x3F { w & 0x3F }
  const LIMIT_MASK: bv32 := 0x3F
  function SetLateAllocLimit(w: bv32, v: bv32): (r: bv32)
    requires v <= 0x3F
    ensures LateAllocLimit(r) == v
  {
    SetLateAllocLimitReads(w, v);
    (w & !LIMIT_MASK) | v
  }

  lemma SetLateAllocLimitReads(w: bv32, v: bv32)
    requires v <= 0x3F
    ensures LateAllocLimit((w & !LIMIT_MASK) | v) == v
  {
  }

  // ---- GB_TILE_MODE0 ----

  /** GB_TILE_MODE0.PIPE_CONFIG (bits 6..10). */
  function PipeConfig(w: bv32): (f: bv32) ensures f <= 0x1F { (w >> 6) & 0x1F }

}
