// The immutable capability snapshot a Gfx6-family pipeline consults: chip
// properties, driver settings and the hardware-workaround switches of the
// device it is created on.
module Device {
  import opened Common

  /** Graphics IP generations handled by this hardware layer, in release order. */
  datatype GfxIpLevel = GfxIp6 | GfxIp7 | GfxIp8 | GfxIp8_1
  {
    function Rank(): (n: nat)
      ensures n <= 3
    {
      match this
      case GfxIp6 => 0
      case GfxIp7 => 1
      case GfxIp8 => 2
      case GfxIp8_1 => 3
    }

    predicate AtLeast(other: GfxIpLevel) { Rank() >= other.Rank() }
  }

  /** The driver setting that governs out-of-order primitive rendering. */
  datatype OutOfOrderPrimMode =
    | OutOfOrderPrimDisable
    | OutOfOrderPrimSafe
    | OutOfOrderPrimAggressive
    | OutOfOrderPrimAlways

  /** Chip properties (the `gfx6` block of the GPU chip properties, plus the generation). */
  datatype ChipProperties = ChipProperties(
    gfxLevel: GfxIpLevel,
    numShaderEngines: u32,
    gsVgtTableDepth: bv32,
    rbPlus: bool,
    numCuPerSh: u32,
    numCuAlwaysOnPerSh: u32,
    maxNumCuPerSh: u32,
    numSimdPerCu: u32,
    numWavesPerSimd: u32,
    numPhysicalSgprs: u32,
    numPhysicalVgprs: u32,
    maxLateAllocVsLimit: u32,
    gbTileMode0: bv32)

  /** Driver settings (private Gfx6 settings and the public ones the pipeline reads). */
  datatype Settings = Settings(
    enableLoadIndexForObjectBinds: bool,
    gfx7OutOfOrderWatermark: u32,
    gfx7EnableOutOfOrderPrimitives: OutOfOrderPrimMode,
    dsWavesPerSimdOverflow: u32,
    vsHalfPackThreshold: u32,
    waMiscGsNullPrim: bool,
    gfx8RbPlusEnable: bool,
    gfx7LateAllocVsOnCuAlwaysOn: bool,
    tossPointAfterPs: bool,
    depthClampBasedOnZExport: bool,
    numScratchWavesPerCu: u32)

  /** A device: its chip, its settings, and the workaround switches derived from them. */
  datatype Device = Device(
    chip: ChipProperties,
    settings: Settings,
    waDbOverRasterization: bool,
    waDbReZStencilCorruption: bool,
    waShaderOffChipGsHang: bool,
    degeneratePrimFilter: bool,
    useFixedLateAllocVsLimit: bool,
    lateAllocVsLimit: u32)
}
