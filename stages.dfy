// Which hardware stage runs each API shader of a Gfx6-family graphics
// pipeline, where the vertex shader's user data starts, and how much scratch
// memory the pipeline needs (GraphicsPipeline::GetShaderStageInfo,
// GetVsUserDataBaseOffset and ComputeScratchMemorySize).
module Stages {
  import opened Common
  import opened Registers
  import opened Signature

  /** API shader stages. */
  datatype ApiShader = Compute | Vertex | Hull | Domain | Geometry | Pixel

  /**
   * The hardware stage whose stage info describes an API shader, if the
   * pipeline runs it: the vertex shader on LS with tessellation, else on ES
   * with a GS, else on VS; hull on HS and domain on ES (with a GS) or VS,
   * both only with tessellation; geometry on GS only with a GS; pixel on PS.
   */
  function GetShaderStageInfo(api: ApiShader, tessEnabled: bool, gsEnabled: bool): (r: Option<HwStage>)
    ensures r.Some? <==> ApiShaderPresent(api, tessEnabled, gsEnabled)
    ensures api == Vertex ==> r == Some(VbTableStage(tessEnabled, gsEnabled))
  {
    match api
    case Vertex => Some(if tessEnabled then Ls else if gsEnabled then Es else Vs)
    case Hull => if tessEnabled then Some(Hs) else None
    case Domain => if tessEnabled then Some(if gsEnabled then Es else Vs) else None
    case Geometry => if gsEnabled then Some(Gs) else None
    case Pixel => Some(Ps)
    case Compute => None
  }

  /** The API shaders a pipeline with these stages runs. */
  predicate ApiShaderPresent(api: ApiShader, tessEnabled: bool, gsEnabled: bool)
  {
    api == Vertex || api == Pixel || (tessEnabled && (api == Hull || api == Domain)) || (gsEnabled && api == Geometry)
  }

  /**
   * Every API shader the pipeline runs has a hardware stage, no two of them
   * share one, and the vertex shader's stage is the one whose user data
   * carries the vertex-buffer table.
   */
  lemma StageInfoMapping(a: ApiShader, b: ApiShader, tessEnabled: bool, gsEnabled: bool)
    ensures GetShaderStageInfo(a, tessEnabled, gsEnabled).Some? <==> ApiShaderPresent(a, tessEnabled, gsEnabled)
    ensures a != b && GetShaderStageInfo(a, tessEnabled, gsEnabled).Some? ==>
              GetShaderStageInfo(a, tessEnabled, gsEnabled) != GetShaderStageInfo(b, tessEnabled, gsEnabled)
    ensures GetShaderStageInfo(Vertex, tessEnabled, gsEnabled) == Some(VbTableStage(tessEnabled, gsEnabled))
  {
  }

  /** The first user-data register of the hardware stage that runs the vertex shader. */
  function GetVsUserDataBaseOffset(tessEnabled: bool, gsEnabled: bool): (a: u16)
    ensures a == BaseRegAddr(VbTableStage(tessEnabled, gsEnabled))
  {
    if tessEnabled then mmSPI_SHADER_USER_DATA_LS_0
    else if gsEnabled then mmSPI_SHADER_USER_DATA_ES_0
    else mmSPI_SHADER_USER_DATA_VS_0
  }

  /** The vertex shader's user-data base is the first user-data register of its hardware stage. */
  lemma VsUserDataBaseMatchesStage(tessEnabled: bool, gsEnabled: bool)
    ensures GetVsUserDataBaseOffset(tessEnabled, gsEnabled) ==
              BaseRegAddr(GetShaderStageInfo(Vertex, tessEnabled, gsEnabled).value)
  {
  }

  // ---- Scratch memory ----

  /** Hardware stages described by pipeline metadata (the six graphics stages and CS). */
  const NumAbiHardwareStages: nat := 7

  /** A hardware stage's metadata: its scratch memory size in bytes, when present. */
  datatype StageScratch = StageScratch(hasScratchMemorySize: bool, scratchMemorySize: u32)

  type StageScratchTable = s: seq<StageScratch> | |s| == NumAbiHardwareStages
    witness [StageScratch(false, 0), StageScratch(false, 0), StageScratch(false, 0), StageScratch(false, 0),
             StageScratch(false, 0), StageScratch(false, 0), StageScratch(false, 0)]

  /** The largest scratch size among stages `0 .. n-1` that give one, 0 when none does. */
  function MaxScratchBytes(s: StageScratchTable, n: nat): u32
    requires n <= NumAbiHardwareStages
  {
    if n == 0 then 0
    else if s[n - 1].hasScratchMemorySize then Max(MaxScratchBytes(s, n - 1), s[n - 1].scratchMemorySize)
    else MaxScratchBytes(s, n - 1)
  }

  /**
   * The maximum is an upper bound of every stage's declared size and is
   * either 0 or one of them.
   */
  lemma {:induction false} MaxScratchBytesIsMaximum(s: StageScratchTable, n: nat)
    requires n <= NumAbiHardwareStages
    ensures forall i :: 0 <= i < n && s[i].hasScratchMemorySize ==> s[i].scratchMemorySize <= MaxScratchBytes(s, n)
    ensures MaxScratchBytes(s, n) == 0 ||
            exists i :: 0 <= i < n && s[i].hasScratchMemorySize && s[i].scratchMemorySize == MaxScratchBytes(s, n)
  {
    if n > 0 {
      MaxScratchBytesIsMaximum(s, n - 1);
    }
  }

  /** The scratch memory the pipeline needs, in dwords: the largest stage's size, rounded down to whole dwords. */
  method ComputeScratchMemorySize(s: StageScratchTable) returns (dwords: u32)
    ensures dwords == MaxScratchBytes(s, NumAbiHardwareStages) / 4
  {
    var bytes: u32 := 0;
    var i := 0;
    while i < NumAbiHardwareStages
      invariant 0 <= i <= NumAbiHardwareStages
      invariant bytes == MaxScratchBytes(s, i)
    {
      if s[i].hasScratchMemorySize {
        bytes := Max(bytes, s[i].scratchMemorySize);
      }
      i := i + 1;
    }
    dwords := bytes / 4;
  }
}
