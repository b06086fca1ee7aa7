// The register image a graphics pipeline builds once and writes on every
// bind: the context registers and the one SH register the pipeline itself
// owns (the per-stage chunk registers are not part of this model).
module RegisterImage {
  /** The pipeline's context registers, each a raw 32-bit word; zero until set up. */
  datatype ContextRegs = ContextRegs(
    vgtShaderStagesEn: bv32,
    vgtGsMode: bv32,
    vgtReuseOff: bv32,
    vgtTfParam: bv32,
    vgtLsHsConfig: bv32,
    cbColorControl: bv32,
    cbTargetMask: bv32,
    cbShaderMask: bv32,
    paClClipCntl: bv32,
    paSuVtxCntl: bv32,
    paClVteCntl: bv32,
    paScLineCntl: bv32,
    paScModeCntl1: bv32,
    spiInterpControl0: bv32,
    vgtVertexReuseBlockCntl: bv32,
    dbShaderControl: bv32,
    dbAlphaToMask: bv32,
    dbRenderOverride: bv32,
    sxPsDownconvert: bv32,
    sxBlendOptEpsilon: bv32,
    sxBlendOptControl: bv32)

  /** The image the constructor leaves: every register zero. */
  const ZeroContextRegs := ContextRegs(0, 0, 0, 0, 0, 0, 0, 0, 0, 0, 0, 0, 0, 0, 0, 0, 0, 0, 0, 0, 0)
}
