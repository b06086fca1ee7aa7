# GFX6-family graphics pipeline: a verified model

This project models the hardware-specific graphics pipeline of PAL's GFX6
family (GFX6, GFX7 and GFX8 chips). The pipeline reads a compiled pipeline
binary's register values (a sparse map from register address to 32-bit
value) together with the create info, the chip's properties and the device
settings. From these it builds the pipeline's register image, resolves the
user-data signature of every hardware shader stage, and writes the image into
a command stream at bind time. The project also models two small helpers of
the developer-driver platform layer: the linear congruential generator
`Random` and the allocator callback's alignment clamp `AllocCb::Alloc`.

Modules, following the structure of the program:

- `Common`, `Registers`, `Device`, `RegisterImage`: the shared pieces.
  - 32-bit words with named fields. Each field setter proves that it sets its
    own field and keeps the register's other modelled fields.
  - Register addresses and the sparse register map with `HasEntry` and `At`.
  - Chip properties, settings and workarounds.
  - The pipeline's context-register image.
- `OutOfOrder`: `CanDrawPrimsOutOfOrder`, the draw-time decision whether
  primitives may be rasterized out of order.
- `Signature`: the user-data signature resolver. It classifies each register,
  records it per stage, scans a stage, scans the whole pipeline and packs the
  view-id addresses.
- `Stages`: the API-to-hardware stage mapping, the VS user-data base and the
  scratch-memory size.
- `CommonRegisters`: the register rules of `SetupCommonRegisters`.
- `ColorState`: the colour-buffer rules of `SetupNonShaderRegisters`. These
  are the ROP3 table, the RB+ tables, the per-slot RB+ update, the
  target-mask loop, the colour mode, the dual-source guard and the RPM
  override.
- `WaveBudget`: `CalcMaxWavesPerSh`, `CalcDynamicStageInfo(s)` and the
  late-alloc VS limit.
- `PrimAssembly`: `IA_MULTI_VGT_PARAM`, that is, the primgroup size, the
  partial-wave bits and the GFX7+ switch-on-EOP/EOI fixup.
- `Emission`: bind-time command sequences as functions. A command stream is an
  append-only sequence of abstract commands:
  - `SetReg(space, addr, value)` and `SetRegs(space, addr, values)`;
  - `LoadIndex(space, gpuVa, count)`;
  - `Rmw(addr, mask, value)`;
  - opaque chunk commands.
- `DdcPlatform`: `Random` as a class over its 64-bit state, and `AllocCb::Alloc`.
- `Pipeline`: the `GraphicsPipeline` class. Its fields are the context image,
  `SPI_SHADER_LATE_ALLOC_VS`, the two-element `IA_MULTI_VGT_PARAM` array, the
  signature, the load path and the GS-on-chip flag. Its methods set these up
  step by step, as the source does, and write the command stream. The
  `Uploader` class holds the uploaded register images of the load-index path.

Every method that changes state is proved against a specification function of
the old state and the inputs. What the source promises is then proved about
those functions as lemmas.

Registers are 32-bit words (`bv32`). The bit position of each field is taken
from the SI/CI/VI register headers, which are not part of this model. Arithmetic
that the source does in `uint32` (and `uint64` in `Random`) is written out
modulo 2^32 (2^64).

## Model

| member | source | states |
|---|---|---|
| OutOfOrder.CanDrawPrimsOutOfOrder | src/core/hw/gfxip/gfx6/gfx6GraphicsPipeline.cpp:148-241 | The loop over the colour targets returns exactly the out-of-order policy decision `OutOfOrderAllowed`. |
| OutOfOrder.DisableNeverAllows | src/core/hw/gfxip/gfx6/gfx6GraphicsPipeline.cpp:235-238 | Policy Disable never allows out-of-order primitives. |
| OutOfOrder.AlwaysAllows | src/core/hw/gfxip/gfx6/gfx6GraphicsPipeline.cpp:156-238 | Policy Always always allows them, whatever the bound state, UAV writes included. |
| OutOfOrder.SafeOrAggressiveRequirements | src/core/hw/gfxip/gfx6/gfx6GraphicsPipeline.cpp:158-226 | Under Safe/Aggressive, allowing requires: no PS UAV writes, a bound depth-stencil state and view, depth and stencil able to run out of order whenever writes are on, and under Safe with active queries no depth/stencil writes. |
| OutOfOrder.SafeAllowsOnlyWithoutColorWrites | src/core/hw/gfxip/gfx6/gfx6GraphicsPipeline.cpp:200-231 | Under Safe, allowing requires a bound blend state and no colour target with a non-zero write mask. |
| OutOfOrder.SafeImpliesAggressive | src/core/hw/gfxip/gfx6/gfx6GraphicsPipeline.cpp:158-231 | Whatever Safe allows, Aggressive allows too. |
| Signature.Classify | src/core/hw/gfxip/gfx6/gfx6GraphicsPipeline.cpp:1552-1657 | A user-data value is a stream-out alias exactly when value+1 is the stream-out entry. It is otherwise an indirect-table alias exactly when value+1 is the indirect entry. It is a logical binding exactly when it is neither and below MaxUserDataEntries, and that binding carries the value. |
| Signature.RecordEntry | src/core/hw/gfxip/gfx6/gfx6GraphicsPipeline.cpp:1574-1586 | Recording a binding sets the first user-SGPR address only when none was set, and never touches the spill-table address. |
| Signature.ScanStep | src/core/hw/gfxip/gfx6/gfx6GraphicsPipeline.cpp:1549-1659 | One register of the scan records the binding exactly when the register holds one, and otherwise leaves the stage's layout as it was. |
| Signature.ReservedValueEffect | src/core/hw/gfxip/gfx6/gfx6GraphicsPipeline.cpp:1587-1656 | A register holding a reserved value keeps the stage's layout and the other stages and records the value's role: the spill table in the stage, the vertex buffer, stream-out and draw index tables pipeline-wide, base vertex at the register and base instance at the one before it, the view id in the stage's slot, the ES/GS LDS size where the stage has such a register; global, per-shader, workgroup, base index and log2 index size change nothing. |
| Signature.ScanStepRoles | src/core/hw/gfxip/gfx6/gfx6GraphicsPipeline.cpp:1587-1656 | One register of the scan sets the stage's spill table register to itself exactly when it holds the spill table value, and the stage's view id register likewise; no other stage's view id changes. |
| Signature.LastRoleAt | src/core/hw/gfxip/gfx6/gfx6GraphicsPipeline.cpp:1549-1659 | The last register of a range that holds a given reserved value, or none when no register of the range holds it. |
| Signature.ScanRangeSpillTable | src/core/hw/gfxip/gfx6/gfx6GraphicsPipeline.cpp:1595-1598 | After scanning a range, the stage's spill table register is the last register of the range holding the spill table value, and is unchanged when none does. |
| Signature.ScanRangeViewId | src/core/hw/gfxip/gfx6/gfx6GraphicsPipeline.cpp:1649-1652 | After scanning a range, the stage's view id register is the last register of the range holding the view id value (unchanged when none does), and every other stage's view id register is unchanged. |
| Signature.ScanStageKeepsOthers | src/core/hw/gfxip/gfx6/gfx6GraphicsPipeline.cpp:1497-1686 | Scanning one stage leaves every other stage's entry and view id register as they were. |
| Signature.ScanStageRoles | src/core/hw/gfxip/gfx6/gfx6GraphicsPipeline.cpp:1497-1686 | Scanning a stage sets its spill table and view id registers to the last registers of its user-data range holding those values. |
| Signature.TessScanRoles | src/core/hw/gfxip/gfx6/gfx6GraphicsPipeline.cpp:1705-1709 | With tessellation the LS and HS spill table and view id registers are the scanned ones; otherwise every stage's are unchanged. |
| Signature.GsScanRoles | src/core/hw/gfxip/gfx6/gfx6GraphicsPipeline.cpp:1710-1714 | With a GS the ES and GS spill table and view id registers are the scanned ones; otherwise every stage's are unchanged. |
| Signature.ScanStageRolesAt | src/core/hw/gfxip/gfx6/gfx6GraphicsPipeline.cpp:1497-1686 | Scanning one stage gives that stage the scanned spill table and view id registers and keeps every other stage's. |
| Signature.PreFinalSignature | src/core/hw/gfxip/gfx6/gfx6GraphicsPipeline.cpp:1689-1721 | The resolved signature is the signature of the stage scans with only the view id array packed, and each active stage's spill table and view id registers in it are the scanned ones. |
| Signature.ResolvedSpillTableAndViewId | src/core/hw/gfxip/gfx6/gfx6GraphicsPipeline.cpp:1689-1721 | In the resolved signature an active stage's spill table register is the last register of its range holding the spill table value (the initial one when none does), and a view id register found in its range appears in the packed view id array. |
| Signature.ResolveSignature | src/core/hw/gfxip/gfx6/gfx6GraphicsPipeline.cpp:1689-1721 | Without tessellation the LS and HS maps are kept, without a GS the ES and GS maps are kept and the GS LDS size register is the initial one. |
| Signature.PackViewIds | src/core/hw/gfxip/gfx6/gfx6GraphicsPipeline.cpp:1718-1720 | Every mapped entry of the packed view id array comes from the unpacked array. |
| Signature.ScanRange | src/core/hw/gfxip/gfx6/gfx6GraphicsPipeline.cpp:1549-1659 | A scan of addresses [lo, hi) maps the stage's first user SGPR inside the range or not at all. It changes no other stage, no limits, and (without an EsGs LDS size register) no EsGs register. |
| Signature.RecordRange | src/core/hw/gfxip/gfx6/gfx6GraphicsPipeline.cpp:1574-1586 | The layout-only scan puts its first user SGPR inside the scanned range or leaves it unmapped. |
| Signature.ScanRangeLayout | src/core/hw/gfxip/gfx6/gfx6GraphicsPipeline.cpp:1549-1659 | The full scan leaves a stage with the same layout as the layout-only scan. |
| Signature.RecordRangeFirst | src/core/hw/gfxip/gfx6/gfx6GraphicsPipeline.cpp:1574-1586 | The first user-SGPR address is the lowest scanned address that holds a binding. It is unmapped exactly when there is none, and the count is zero exactly then. |
| Signature.RecordRangeSpan | src/core/hw/gfxip/gfx6/gfx6GraphicsPipeline.cpp:1574-1586 | Every binding lies within 16 registers of the first one, and the user-SGPR count is strictly greater than its index. |
| Signature.RecordRangeEntryAt | src/core/hw/gfxip/gfx6/gfx6GraphicsPipeline.cpp:1574-1586 | A binding at address a is recorded as `mappedEntry[a - firstUserSgprRegAddr] = value`. |
| Signature.RecordRangeCountTight | src/core/hw/gfxip/gfx6/gfx6GraphicsPipeline.cpp:1574-1586 | The user-SGPR count ends at the last binding: the register just below first+count holds a binding. |
| Signature.RecordRangeOthers | src/core/hw/gfxip/gfx6/gfx6GraphicsPipeline.cpp:1574-1586 | Entries at offsets without a binding keep their old value. |
| Signature.StreamOutAliasEffect | src/core/hw/gfxip/gfx6/gfx6GraphicsPipeline.cpp:1556-1562 | A stream-out alias creates no binding. It sets the stream-out table address only in the VS stage and leaves the vertex-buffer table address unchanged. |
| Signature.IndirectAliasEffect | src/core/hw/gfxip/gfx6/gfx6GraphicsPipeline.cpp:1565-1573 | An indirect-table alias creates no binding. It sets the vertex-buffer table address only on the vertex-buffer-table stage and leaves the stream-out address unchanged. |
| Signature.VbTableStage | src/core/hw/gfxip/gfx6/gfx6GraphicsPipeline.cpp:1509-1510 | The vertex-buffer table stage is LS exactly with tessellation, ES exactly with a GS and no tessellation, and VS otherwise. |
| Signature.PackViewIdsFrontLoads | src/core/hw/gfxip/gfx6/gfx6GraphicsPipeline.cpp:1718-1720 | After packing, the mapped view-id addresses come first, in their order, and every slot after them is unmapped. |
| Signature.PackViewIdsKeepsMapped | src/core/hw/gfxip/gfx6/gfx6GraphicsPipeline.cpp:1718-1720 | Packing keeps every mapped address as often as it occurred. |
| Signature.EntryPlus1 | src/core/hw/gfxip/gfx6/gfx6GraphicsPipeline.cpp:1503-1508 | An absent metadata entry is "not mapped" (0), and a present one is truncated to 16 bits. |
| Signature.ScanStage | src/core/hw/gfxip/gfx6/gfx6GraphicsPipeline.cpp:1497-1686 | Scanning one stage changes no other stage's map, and changes the EsGs register only when the stage has one. |
| Signature.WithLimits | src/core/hw/gfxip/gfx6/gfx6GraphicsPipeline.cpp:1695-1703 | Applying the metadata limits leaves every stage map unchanged. |
| Signature.ScanSig | src/core/hw/gfxip/gfx6/gfx6GraphicsPipeline.cpp:1497-1686 | A stage scan of the signature changes no other stage. |
| Signature.TessScan | src/core/hw/gfxip/gfx6/gfx6GraphicsPipeline.cpp:1705-1709 | The LS/HS scan touches only stages LS and HS, and changes nothing without tessellation. |
| Signature.GsScan | src/core/hw/gfxip/gfx6/gfx6GraphicsPipeline.cpp:1710-1714 | The ES/GS scan touches only stages ES and GS, and changes nothing without a GS. |
| Signature.VsScan | src/core/hw/gfxip/gfx6/gfx6GraphicsPipeline.cpp:1715 | The VS scan touches only stage VS. |
| Signature.ScanStageLayout | src/core/hw/gfxip/gfx6/gfx6GraphicsPipeline.cpp:1549-1659 | A stage scan leaves the stage with the layout of the layout-only scan under that stage's context. |
| Signature.TessScanLayout | src/core/hw/gfxip/gfx6/gfx6GraphicsPipeline.cpp:1705-1709 | With tessellation, LS and HS each end with their own stage's layout. |
| Signature.GsScanLayout | src/core/hw/gfxip/gfx6/gfx6GraphicsPipeline.cpp:1710-1714 | With a GS, ES and GS each end with their own stage's layout. |
| Signature.ResolveSignatureStageMaps | src/core/hw/gfxip/gfx6/gfx6GraphicsPipeline.cpp:1689-1721 | The resolver leaves inactive stages untouched and gives each active stage its own scan's layout. |
| Signature.ResolvedBindings | src/core/hw/gfxip/gfx6/gfx6GraphicsPipeline.cpp:1549-1586 | For every binding at address a in an active stage, the resolved signature maps it, starting no lower than the stage's base register, at `mappedEntry[a - first]`, and counts it. |
| Signature.LaidOutBinding | src/core/hw/gfxip/gfx6/gfx6GraphicsPipeline.cpp:1549-1586 | The same holds for a single stage's layout scan from the null map. |
| Signature.ResolveSignatureLimits | src/core/hw/gfxip/gfx6/gfx6GraphicsPipeline.cpp:1695-1703 | The spill threshold and user-data limit are the metadata's values truncated to 16 bits when present, and are kept otherwise. Without a GS, the GS EsGs register is the one passed in. |
| Stages.StageInfoMapping | src/core/hw/gfxip/gfx6/gfx6GraphicsPipeline.cpp:425-457 | An API shader has a hardware stage exactly when it is present in the pipeline. Distinct present shaders get distinct stages, and the vertex shader runs on the vertex-buffer-table stage. |
| Stages.VsUserDataBaseMatchesStage | src/core/hw/gfxip/gfx6/gfx6GraphicsPipeline.cpp:1475-1493 | The VS user-data base offset is the first user-data register of the hardware stage the vertex shader runs on. |
| Stages.GetShaderStageInfo | src/core/hw/gfxip/gfx6/gfx6GraphicsPipeline.cpp:425-457 | A stage info exists exactly when the API shader is present in the pipeline, and the vertex shader's is that of the stage holding the vertex buffer table (LS with tessellation, else ES with a GS, else VS). |
| Stages.GetVsUserDataBaseOffset | src/core/hw/gfxip/gfx6/gfx6GraphicsPipeline.cpp:1475-1492 | The base user-data register of the stage that runs the vertex shader. |
| Stages.MaxScratchBytesIsMaximum | src/core/hw/gfxip/gfx6/gfx6GraphicsPipeline.cpp:1395-1410 | The scratch fold is at least every stage's scratch size that is present, and it is either zero or equal to one of them. |
| Stages.ComputeScratchMemorySize | src/core/hw/gfxip/gfx6/gfx6GraphicsPipeline.cpp:1395-1410 | The loop returns the maximum scratch size over the stages, in dwords. |
| CommonRegisters.WalkFence | src/core/hw/gfxip/gfx6/gfx6GraphicsPipeline.cpp:948-985 | Choosing the walk-fence size keeps the out-of-order and per-sample fields of PA_SC_MODE_CNTL_1. |
| CommonRegisters.ClampedWatermark | src/core/hw/gfxip/gfx6/gfx6GraphicsPipeline.cpp:937-940 | The out-of-order watermark is the setting clamped to 7. |
| CommonRegisters.ModeCntl1Watermark | src/core/hw/gfxip/gfx6/gfx6GraphicsPipeline.cpp:937-940 | PA_SC_MODE_CNTL_1's watermark is min(7, setting). |
| CommonRegisters.ModeCntl1OutOfOrder | src/core/hw/gfxip/gfx6/gfx6GraphicsPipeline.cpp:942-946 | Out-of-order primitives are enabled when the create info asks and the setting is not Disable. Otherwise the binary's bit is kept. |
| CommonRegisters.ModeCntl1WalkFence | src/core/hw/gfxip/gfx6/gfx6GraphicsPipeline.cpp:948-985 | The walk-fence size is 256 pixels (code 2) for 2 pipes and 512 pixels (code 3) for 4 or more pipes. It is the binary's value otherwise. |
| CommonRegisters.ModeCntl1PerSample | src/core/hw/gfxip/gfx6/gfx6GraphicsPipeline.cpp:988-991 | PS_ITER_SAMPLE is set exactly when the binary sets it or the create info forces sample-rate shading. |
| CommonRegisters.DbRenderOverrideFields | src/core/hw/gfxip/gfx6/gfx6GraphicsPipeline.cpp:1003-1024 | DB_RENDER_OVERRIDE disables the viewport clamp exactly when depth clamp is disabled (and, when based on Z export, the shader exports Z). It forces shader Z order exactly for Re-Z. It forces stencil reads under the Re-Z workaround or when already set. |
| CommonRegisters.DbRenderOverrideWithinRmwMask | src/core/hw/gfxip/gfx6/gfx6GraphicsPipeline.cpp:87-89 | From a zero register, DB_RENDER_OVERRIDE sets no bit outside the read-modify-write mask. |
| CommonRegisters.RmwKeepsDisjointFields | src/core/hw/gfxip/gfx6/gfx6GraphicsPipeline.cpp:87-93 | A read-modify-write under the pipeline's mask leaves every field of a disjoint mask (the depth-stencil view's) as it was. |
| CommonRegisters.TfParamOverride | src/core/hw/gfxip/gfx6/gfx6GraphicsPipeline.cpp:1029-1038 | With a dynamic HS and a non-zero DS-waves field, NUM_DS_WAVES_PER_SIMD becomes the overflow setting's low 4 bits. Partitioning and distribution mode are kept, and the register is unchanged otherwise. |
| CommonRegisters.VertexReuseDepthChoice | src/core/hw/gfxip/gfx6/gfx6GraphicsPipeline.cpp:1040-1056 | VTX_REUSE_DEPTH is 14 or 30. It is 30 exactly under the GFX8+ deep-reuse rule, and 14 whenever filtering applies without odd fractional partitioning or the chip is older than GFX8. |
| CommonRegisters.InterpControl0Fields | src/core/hw/gfxip/gfx6/gfx6GraphicsPipeline.cpp:1058-1065 | Flat shading is on exactly when the create info asks. The sprite origin is chosen from the point origin only in point-sprite mode and is kept otherwise. |
| ColorState.Rop3IsTruthTable | src/core/hw/gfxip/gfx6/gfx6GraphicsPipeline.cpp:1725-1749 | Each ROP3 code is the truth table of its logic op applied to the source (0xCC) and destination (0xAA) patterns. |
| ColorState.Rop3Injective | src/core/hw/gfxip/gfx6/gfx6GraphicsPipeline.cpp:1725-1749 | Distinct logic ops get distinct ROP3 codes. |
| ColorState.SxDownConvertFormat | src/core/hw/gfxip/gfx6/gfx6GraphicsPipeline.cpp:1754-1835 | The SX down-conversion is NO_CONVERSION exactly for formats outside the table, and never 32_A. |
| ColorState.SxBlendOptEpsilon | src/core/hw/gfxip/gfx6/gfx6GraphicsPipeline.cpp:1839-1874 | The blend-optimization epsilon fits a nibble. |
| ColorState.EpsilonShrinksWithPrecision | src/core/hw/gfxip/gfx6/gfx6GraphicsPipeline.cpp:1839-1874 | A more precise down-conversion never gets a larger epsilon. |
| ColorState.SlotEpsilon | src/core/hw/gfxip/gfx6/gfx6GraphicsPipeline.cpp:776-777 | A slot's epsilon is 0 for NO_CONVERSION and the table epsilon otherwise. |
| ColorState.SxBlendOptControl | src/core/hw/gfxip/gfx6/gfx6GraphicsPipeline.cpp:1878-1891 | Colour optimization is disabled exactly when the write mask has no RGB bit, and alpha optimization exactly when it has no alpha bit. |
| ColorState.RbPlusSlotDownconvert | src/core/hw/gfxip/gfx6/gfx6GraphicsPipeline.cpp:763-788 | The per-slot update writes the slot's down-conversion nibble and keeps every other slot's nibble. |
| ColorState.RbPlusSlotEpsilon | src/core/hw/gfxip/gfx6/gfx6GraphicsPipeline.cpp:763-788 | The per-slot update writes the slot's epsilon nibble (0 without conversion) and keeps every other slot's nibble. |
| ColorState.RbPlusSlotControl | src/core/hw/gfxip/gfx6/gfx6GraphicsPipeline.cpp:763-788 | The per-slot update writes the slot's two blend-opt-control bits, keeps its other two bits, and keeps every other slot. |
| ColorState.RbPlusSlotsDownconvert | src/core/hw/gfxip/gfx6/gfx6GraphicsPipeline.cpp:885-893 | After n slots, every slot below n holds its target's down-conversion and every other slot is as before. |
| ColorState.RbPlusSlotsEpsilon | src/core/hw/gfxip/gfx6/gfx6GraphicsPipeline.cpp:885-893 | After n slots, every slot below n holds its target's epsilon and every other slot is as before. |
| ColorState.RbPlusSlotsControl | src/core/hw/gfxip/gfx6/gfx6GraphicsPipeline.cpp:885-893 | After n slots, every slot below n holds its target's blend-opt-control bits and every other slot is as before. |
| ColorState.RbPlusControlBits | src/core/hw/gfxip/gfx6/gfx6GraphicsPipeline.cpp:885-893 | After all eight slots, each slot's colour/alpha opt-disable bit is set exactly when its target writes no RGB/alpha channel. |
| ColorState.TargetMaskNibbles | src/core/hw/gfxip/gfx6/gfx6GraphicsPipeline.cpp:807-811 | After n targets, nibble k of CB_TARGET_MASK is target k's write mask (low 4 bits) for k < n, and 0 otherwise. |
| ColorState.TargetMaskIsWord | src/core/hw/gfxip/gfx6/gfx6GraphicsPipeline.cpp:807-811 | The target-by-target loop's word equals the closed form used by the rest of the model. |
| ColorState.SetModeAndRop3 | src/core/hw/gfxip/gfx6/gfx6GraphicsPipeline.cpp:813-842 | Setting the mode and ROP3 keeps DISABLE_DUAL_QUAD. |
| ColorState.DecompressPassesWriteTarget0 | src/core/hw/gfxip/gfx6/gfx6GraphicsPipeline.cpp:813-842 | The fast-clear-eliminate, fmask-decompress and DCC-decompress passes set both masks to 0xF, ROP3 to copy (0xCC), and their own mode, with fast-clear-eliminate taking precedence. |
| ColorState.ResolveEnablesTarget0 | src/core/hw/gfxip/gfx6/gfx6GraphicsPipeline.cpp:843-850 | A fixed-function resolve sets CB_RESOLVE with copy ROP3 and enables target 0 in both masks, keeping the other targets' nibbles. |
| ColorState.OrdinaryColorMode | src/core/hw/gfxip/gfx6/gfx6GraphicsPipeline.cpp:851-859 | Otherwise the mode is CB_DISABLE exactly when either mask is zero, and CB_NORMAL with the logic op's ROP3 when neither is. |
| ColorState.DualSourceGuard | src/core/hw/gfxip/gfx6/gfx6GraphicsPipeline.cpp:861-870 | With dual-source blending and an empty first or second shader-mask nibble, the mode becomes CB_DISABLE with ROP3 kept. The register is unchanged otherwise. |
| ColorState.RbPlusStepKeepsMode | src/core/hw/gfxip/gfx6/gfx6GraphicsPipeline.cpp:876-899 | The RB+ step keeps mode and ROP3. It clears DISABLE_DUAL_QUAD whenever it changes the SX registers, and on an RB+ chip dual quad stays enabled only when RB+ is enabled without dual-source blending. |
| ColorState.OrdinaryPipelineColorMode | src/core/hw/gfxip/gfx6/gfx6GraphicsPipeline.cpp:805-916 | For an ordinary pipeline without dual-source blending, colour writes are disabled exactly when the binary's shader mask or the targets' mask is empty. The application after-PS toss point clears CB_TARGET_MASK, which otherwise is the targets' mask. |
| ColorState.WrittenTargetMakesMaskNonZero | src/core/hw/gfxip/gfx6/gfx6GraphicsPipeline.cpp:807-811 | A target with a non-empty write mask makes CB_TARGET_MASK non-zero. |
| ColorState.RpmOverrideClearsOtherSlots | src/core/hw/gfxip/gfx6/gfx6GraphicsPipeline.cpp:462-491 | The RPM override changes nothing when the formats agree or dual quad is disabled. Otherwise it programs the slot's down-conversion and clears every other slot in all three SX registers. |
| ColorState.RpmOverrideOfUnlistedFormat | src/core/hw/gfxip/gfx6/gfx6GraphicsPipeline.cpp:474-490 | Two different formats that have no down-conversion still count as different: the override runs and leaves every slot's down-conversion and epsilon at zero. |
| ColorState.OverrideRbPlusRegistersForRpm | src/core/hw/gfxip/gfx6/gfx6GraphicsPipeline.cpp:462-491 | Equal formats or dual quad disabled return the registers unchanged; otherwise the slot gets the new format's down-conversion code and the blend control of the component mask. |
| ColorState.SetupRbPlusRegistersForSlot | src/core/hw/gfxip/gfx6/gfx6GraphicsPipeline.cpp:763-788 | The slot gets the format's down-conversion code, the format's blend epsilon (zero for a format without down-conversion) and the blend control of its write mask. |
| ColorState.Rop3 | src/core/hw/gfxip/gfx6/gfx6GraphicsPipeline.cpp:1725-1749 | The ROP3 code of a logic operation is its truth table over the source pattern 0xCC and the destination pattern 0xAA. |
| WaveBudget.CalcMaxWavesPerSh | src/core/hw/gfxip/gfx6/gfx6GraphicsPipeline.cpp:495-522 | Zero waves per CU means no limit (0), and the result never exceeds the chip's graphics maximum per SH. |
| WaveBudget.WaveLimitKeepsRequest | src/core/hw/gfxip/gfx6/gfx6GraphicsPipeline.cpp:495-522 | A non-zero request yields at least one unit of waves, and more than one unit only within the requested waves per CU times the CUs per SH. |
| WaveBudget.CalcDynamicStageInfo | src/core/hw/gfxip/gfx6/gfx6GraphicsPipeline.cpp:526-533 | The CU-enable mask is passed through, and zero waves per CU gives zero waves per SH. |
| WaveBudget.DynamicStageInfoPlacement | src/core/hw/gfxip/gfx6/gfx6GraphicsPipeline.cpp:537-596 | On GFX7 and later, each present API shader's info lands in the hardware stage it runs on. |
| WaveBudget.DynamicStageInfoOthersKept | src/core/hw/gfxip/gfx6/gfx6GraphicsPipeline.cpp:537-596 | Hardware stages no present shader runs on, and every stage on GFX6, keep their infos. |
| WaveBudget.CalcDynamicStageInfos | src/core/hw/gfxip/gfx6/gfx6GraphicsPipeline.cpp:537-596 | Below GFX7 nothing is written. From GFX7 the PS entry is the PS info and the entry of the stage running the vertex shader is the VS info. |
| WaveBudget.VsNumSgpr | src/core/hw/gfxip/gfx6/gfx6GraphicsPipeline.cpp:1291 | The VS SGPR count is a multiple of 8, at most 120. |
| WaveBudget.VsNumVgpr | src/core/hw/gfxip/gfx6/gfx6GraphicsPipeline.cpp:1292 | The VS VGPR count is a multiple of 4, at most 252. |
| WaveBudget.MaxVsWaves | src/core/hw/gfxip/gfx6/gfx6GraphicsPipeline.cpp:1303-1337 | When both VS and PS use scratch, the VS wave maximum is bounded by the scratch waves per CU times the late-alloc CUs. |
| WaveBudget.LateAllocLimitField | src/core/hw/gfxip/gfx6/gfx6GraphicsPipeline.cpp:1281-1352 | The LIMIT field fits its 6 bits. |
| WaveBudget.LateAllocVsValue | src/core/hw/gfxip/gfx6/gfx6GraphicsPipeline.cpp:1259-1359 | On GFX6 the register is untouched. Otherwise its LIMIT reads back as the computed limit. |
| WaveBudget.LateAllocWithinChipMaximum | src/core/hw/gfxip/gfx6/gfx6GraphicsPipeline.cpp:1285-1352 | The encoded LIMIT is at most maxLateAllocVsLimit - 1. |
| WaveBudget.LateAllocLeavesHeadroom | src/core/hw/gfxip/gfx6/gfx6GraphicsPipeline.cpp:1339-1352 | Under the dynamic scheme with more than one VS wave possible, LIMIT + 2 is at most the VS wave maximum: one wave of headroom, then count minus one. |
| WaveBudget.LateAllocTargetKeptWhenItFits | src/core/hw/gfxip/gfx6/gfx6GraphicsPipeline.cpp:1339-1345 | A target below the VS wave maximum is kept. Otherwise the waves are at least 1 and below the maximum, or exactly 1. |
| WaveBudget.LateAllocDefaultsToZero | src/core/hw/gfxip/gfx6/gfx6GraphicsPipeline.cpp:1279-1301 | Outside the fixed scheme, LIMIT is 0 when the target is 0 or the VS uses no SGPRs or no VGPRs. |
| WaveBudget.FixedLateAllocIgnoresShader | src/core/hw/gfxip/gfx6/gfx6GraphicsPipeline.cpp:1294-1300 | Under the fixed scheme, LIMIT does not depend on the shader's resource registers. |
| PrimAssembly.DerivedPrimgroupSize | src/core/hw/gfxip/gfx6/gfx6GraphicsPipeline.cpp:1100-1111 | The derived primgroup size fits its 16-bit field. |
| PrimAssembly.BasePrimgroupSizeWithTess | src/core/hw/gfxip/gfx6/gfx6GraphicsPipeline.cpp:1100-1105 | With tessellation, PRIMGROUP_SIZE is the number of patches minus one (0xFFFF for zero patches). |
| PrimAssembly.BasePrimgroupSizeWithoutTess | src/core/hw/gfxip/gfx6/gfx6GraphicsPipeline.cpp:1106-1116 | With a GS and no tessellation, PRIMGROUP_SIZE+1 is the largest group of input control points that fits the GS primitives per ES thread. Without that rule the binary's size is kept. |
| PrimAssembly.BasePartialWaves | src/core/hw/gfxip/gfx6/gfx6GraphicsPipeline.cpp:1118-1131 | PARTIAL_ES_WAVE_ON is set for an on-chip GS. PARTIAL_VS_WAVE_ON is set under the GS-null-primitive workaround with tessellation and a GS. Neither bit is ever cleared, and the switch-on-EOP/EOI bits are the binary's. |
| PrimAssembly.GsTableStep | src/core/hw/gfxip/gfx6/gfx6GraphicsPipeline.cpp:1165-1183 | With a GS whose primgroups would exhaust the GS table, PARTIAL_ES_WAVE_ON is set. No set bit is cleared. |
| PrimAssembly.DistributedTessStep | src/core/hw/gfxip/gfx6/gfx6GraphicsPipeline.cpp:1194-1211 | With distributed tessellation, the partial-wave bit of the stage feeding the rasterizer (ES with a GS, else VS) is set. |
| PrimAssembly.GsHangStep | src/core/hw/gfxip/gfx6/gfx6GraphicsPipeline.cpp:1213-1218 | Under the off-chip GS hang workaround with a GS, PARTIAL_VS_WAVE_ON is set. |
| PrimAssembly.Gfx8Step | src/core/hw/gfxip/gfx6/gfx6GraphicsPipeline.cpp:1185-1223 | On GFX8+, MAX_PRIMGRP_IN_WAVE is 2 and the distributed-tessellation and GS-hang rules apply. Before GFX8 nothing changes. |
| PrimAssembly.WdSwitchStep | src/core/hw/gfxip/gfx6/gfx6GraphicsPipeline.cpp:1225-1244 | WD_SWITCH_ON_EOP is set exactly when it is required (SWITCH_ON_EOP, at most two shader engines, or forced). When it is clear, SWITCH_ON_EOI and PARTIAL_ES_WAVE_ON are set. |
| PrimAssembly.EoiStep | src/core/hw/gfxip/gfx6/gfx6GraphicsPipeline.cpp:1246-1254 | On GFX7 with more than two shader engines, SWITCH_ON_EOI implies PARTIAL_VS_WAVE_ON. |
| PrimAssembly.FixupWdSwitchOnEop | src/core/hw/gfxip/gfx6/gfx6GraphicsPipeline.cpp:1156-1255 | After the whole GFX7+ fixup, WD_SWITCH_ON_EOP is set exactly when required. When clear, SWITCH_ON_EOI and PARTIAL_ES_WAVE_ON are set. |
| PrimAssembly.FixupOnlySets | src/core/hw/gfxip/gfx6/gfx6GraphicsPipeline.cpp:1156-1255 | The fixup never clears a set bit (PARTIAL_ES/VS_WAVE_ON included) and keeps the primgroup size. |
| PrimAssembly.FixupGfx8Rules | src/core/hw/gfxip/gfx6/gfx6GraphicsPipeline.cpp:1185-1223 | The GFX8 rules hold after the whole fixup. |
| PrimAssembly.FixupEoiAndGsTable | src/core/hw/gfxip/gfx6/gfx6GraphicsPipeline.cpp:1165-1254 | The EOI rule and the GS-table rule hold after the whole fixup. |
| PrimAssembly.FixupIaMultiVgtParamOnGfx7Plus | src/core/hw/gfxip/gfx6/gfx6GraphicsPipeline.cpp:1156-1255 | The fixup only sets bits and keeps the input fields, and when WD_SWITCH_ON_EOP stays off it turns on SWITCH_ON_EOI and PARTIAL_ES_WAVE_ON. |
| PrimAssembly.CopiesAfterTheFirstSwitchOnEop | src/core/hw/gfxip/gfx6/gfx6GraphicsPipeline.cpp:1133-1151 | On GFX7+, every copy after the first switches WD on EOP. On GFX6 every copy is the prepared value. |
| Emission.BaseLoadedContextRegsCounted | src/core/hw/gfxip/gfx6/gfx6GraphicsPipeline.cpp:69-84 | The list of context registers the load path loads has exactly BaseLoadedCntxRegCount entries. |
| Emission.ContextCommandsLoadPath | src/core/hw/gfxip/gfx6/gfx6GraphicsPipeline.cpp:663-703 | With a context register count and the PM4 optimizer off, the context commands are one LoadIndex of the uploaded image followed by the two RMWs. Otherwise no command is a load. |
| Emission.ContextCommandsEndWithRmws | src/core/hw/gfxip/gfx6/gfx6GraphicsPipeline.cpp:695-702 | Either way the last two commands are the RMW of DB_ALPHA_TO_MASK under ALPHA_TO_MASK_ENABLE and the RMW of DB_RENDER_OVERRIDE under its mask. |
| Emission.SetPathWritesBaseLoadedRegs | src/core/hw/gfxip/gfx6/gfx6GraphicsPipeline.cpp:718-758 | The set path writes every register the load path loads, except DB_SHADER_CONTROL under the over-rasterization workaround. |
| Emission.SetPathWritesOnlyBaseLoadedRegs | src/core/hw/gfxip/gfx6/gfx6GraphicsPipeline.cpp:718-758 | The set path writes no other context register. |
| Emission.SetPathWritesEachRegOnce | src/core/hw/gfxip/gfx6/gfx6GraphicsPipeline.cpp:718-758 | The set path writes each register at most once. |
| Emission.DrawTimeZOrder | src/core/hw/gfxip/gfx6/gfx6GraphicsPipeline.cpp:107-120 | At draw time with depth testing and over-rasterization, Z order is never early-then-late Z. Otherwise DB_SHADER_CONTROL is unchanged, and Z export is always kept. |
| Emission.DbShaderControlSingleWriter | src/core/hw/gfxip/gfx6/gfx6GraphicsPipeline.cpp:99-128 | DB_SHADER_CONTROL is written at draw time exactly when the workaround applies, and by the set path exactly when it does not. |
| Emission.ShCommandsFirst | src/core/hw/gfxip/gfx6/gfx6GraphicsPipeline.cpp:601-658 | With an SH register count and the optimizer off, the SH commands start with one LoadIndex of the SH image. SPI_SHADER_LATE_ALLOC_VS is written exactly when the load path is not used on GFX7+. |
| Emission.ShCommandsVsPsInfos | src/core/hw/gfxip/gfx6/gfx6GraphicsPipeline.cpp:601-658 | The VS/PS chunk comes last. On GFX7+ it gets the PS info and (without a GS) the info of the shader on the VS stage; on GFX6 it gets empty infos. |
| Emission.CmdStream.Write | src/core/hw/gfxip/gfx6/gfx6GraphicsPipeline.cpp:723-755 | Writing appends exactly one command. |
| Emission.CmdStream.constructor | src/core/hw/gfxip/gfx6/gfx6GraphicsPipeline.cpp:673 | A new stream is empty and records whether the PM4 optimizer is on. |
| DdcPlatform.NextState | shared/gpuopen/core/src/ddcPlatform.cpp:164-171 | The next state is below the modulus. |
| DdcPlatform.PartsAreDisjoint | shared/gpuopen/core/src/ddcPlatform.cpp:173-178 | The two shifted 16-bit parts occupy disjoint bits, so their or is their sum. |
| DdcPlatform.OutputIsStateBits | shared/gpuopen/core/src/ddcPlatform.cpp:173-178 | The output is bits 17..47 of the state, `(state >> 17) & 0x7FFFFFFF`, hence below 2^31. |
| DdcPlatform.Random.Generate | shared/gpuopen/core/src/ddcPlatform.cpp:164-179 | From any state, given a non-zero modulus, the state becomes `(state * a + c) % m` computed in 64-bit arithmetic, so it is below the modulus afterwards. The result is the new state's output bits, below 2^31. |
| DdcPlatform.Random.Reseed | shared/gpuopen/core/src/ddcPlatform.cpp:181-188 | The state becomes `seed % m`, which is below the modulus. |
| DdcPlatform.States | shared/gpuopen/core/src/ddcPlatform.cpp:164-179 | The n states that n calls of Generate pass through: the first is the next state of the start and each later one is the next state of the one before, so the same start always gives the same sequence. |
| DdcPlatform.Outputs | shared/gpuopen/core/src/ddcPlatform.cpp:173-178 | The n values that n calls of Generate return: one per state, each that state's output bits. |
| DdcPlatform.StatesSplit | shared/gpuopen/core/src/ddcPlatform.cpp:164-179 | Running m calls and then n more is the same as running m + n calls: the generator has no state besides the 64-bit state. |
| DdcPlatform.OutputsAre31Bit | shared/gpuopen/core/src/ddcPlatform.cpp:173-178 | Every value of a run of Generate calls is below 2^31. |
| DdcPlatform.StatesBelowModulus | shared/gpuopen/core/src/ddcPlatform.cpp:164-179 | Every state of that sequence is below the modulus. |
| DdcPlatform.AllocClampsAlignment | shared/gpuopen/core/src/ddcPlatform.cpp:194-204 | Alloc passes the callback its userdata, size and zero flag unchanged, and the alignment raised to the system minimum when smaller. |
| DdcPlatform.AllocDefaultUsesMinimum | shared/gpuopen/core/src/ddcPlatform.cpp:206-209 | The overload without an alignment passes exactly the system minimum. |
| Pipeline.Uploader.constructor | src/core/hw/gfxip/gfx6/gfx6GraphicsPipeline.cpp:346 | A new uploader has empty register images and the addresses and counts given. |
| Pipeline.Uploader.AddCtxReg | src/core/hw/gfxip/gfx6/gfx6GraphicsPipeline.cpp:1067-1079 | Adding a context register appends it to the context image. |
| Pipeline.Uploader.AddShReg | src/core/hw/gfxip/gfx6/gfx6GraphicsPipeline.cpp:1354-1357 | Adding an SH register appends it to the SH image. |
| Pipeline.UploadedImageMatchesSetPath | src/core/hw/gfxip/gfx6/gfx6GraphicsPipeline.cpp:718-758 | Every register the two setup steps upload is a load-path register, and the set path writes it with the same value. |
| Pipeline.SetPathRegsAreUploaded | src/core/hw/gfxip/gfx6/gfx6GraphicsPipeline.cpp:718-758 | Conversely, every register the set path writes is in the uploaded image with the value written. |
| Pipeline.LineCntl | src/core/hw/gfxip/gfx6/gfx6GraphicsPipeline.cpp:800-803 | PA_SC_LINE_CNTL's three line fields are as the create info asks, and the DX10 diamond test is on. |
| Pipeline.NewPipelineColorMode | src/core/hw/gfxip/gfx6/gfx6GraphicsPipeline.cpp:792-916 | Starting from a new pipeline, SetupNonShaderRegisters disables colour writes exactly when the binary's shader mask or the targets' mask is empty. The application after-PS toss point clears CB_TARGET_MASK, and ALPHA_TO_MASK_ENABLE follows alpha-to-coverage. |
| Pipeline.GraphicsPipeline.constructor | src/core/hw/gfxip/gfx6/gfx6GraphicsPipeline.cpp:244-265 | A new pipeline has every register zero, the null signature, no load path, a GS that is not on chip, and two zero IA_MULTI_VGT_PARAM copies. |
| Pipeline.GraphicsPipeline.ScanUserDataRegister | src/core/hw/gfxip/gfx6/gfx6GraphicsPipeline.cpp:1552-1657 | One register of the stage scan changes the signature and the EsGs register exactly as the scan step does. |
| Pipeline.GraphicsPipeline.SetupSignatureForStageFromElf | src/core/hw/gfxip/gfx6/gfx6GraphicsPipeline.cpp:1497-1686 | The loop over the stage's sixteen registers, lowest first, leaves the signature as the stage scan. |
| Pipeline.GraphicsPipeline.SetupTessSignature | src/core/hw/gfxip/gfx6/gfx6GraphicsPipeline.cpp:1705-1709 | With tessellation, LS and HS are scanned in that order. |
| Pipeline.GraphicsPipeline.SetupGsSignature | src/core/hw/gfxip/gfx6/gfx6GraphicsPipeline.cpp:1710-1714 | With a GS, ES and GS are scanned in that order, and the GS's EsGs register is returned. |
| Pipeline.GraphicsPipeline.SetupVsPsSignature | src/core/hw/gfxip/gfx6/gfx6GraphicsPipeline.cpp:1715-1716 | VS is scanned, returning its EsGs register, and then PS. |
| Pipeline.GraphicsPipeline.SetupSignatureStages | src/core/hw/gfxip/gfx6/gfx6GraphicsPipeline.cpp:1705-1716 | The active stages are scanned in hardware order. |
| Pipeline.GraphicsPipeline.SetupSignatureFromElf | src/core/hw/gfxip/gfx6/gfx6GraphicsPipeline.cpp:1689-1722 | The signature and the two EsGs registers are those of the resolver: limits, stage scans in order, view ids packed. |
| Pipeline.GraphicsPipeline.ReadStageRegisters | src/core/hw/gfxip/gfx6/gfx6GraphicsPipeline.cpp:277-296 | VGT_SHADER_STAGES_EN is read, and VGT_GS_MODE and VGT_TF_PARAM when present, with nothing else changed. The GS is on chip exactly when it was already or an enabled GS is in on-chip mode. |
| Pipeline.GraphicsPipeline.EarlyInit | src/core/hw/gfxip/gfx6/gfx6GraphicsPipeline.cpp:271-327 | It reads the stage registers and resolves the signature. It reports the base load-path counts exactly when load-index binds are enabled, on-chip tessellation when tessellation is enabled with a non-dynamic HS or DS waves set, and GS use and GS on chip. |
| Pipeline.GraphicsPipeline.SetupIaMultiVgtParam | src/core/hw/gfxip/gfx6/gfx6GraphicsPipeline.cpp:1088-1152 | Both IA_MULTI_VGT_PARAM copies hold the prepared value from the binary (0 when absent), fixed up per copy on GFX7+, where the second copy is forced to switch on EOP. |
| Pipeline.GraphicsPipeline.FillIaMultiVgtParam | src/core/hw/gfxip/gfx6/gfx6GraphicsPipeline.cpp:1133-1151 | The loop stores every copy, fixing it up on GFX7+. |
| Pipeline.GraphicsPipeline.SetupLateAllocVs | src/core/hw/gfxip/gfx6/gfx6GraphicsPipeline.cpp:1259-1359 | SPI_SHADER_LATE_ALLOC_VS becomes the late-alloc value. On GFX7+ the load path adds it to the SH image, which is unchanged otherwise. |
| Pipeline.GraphicsPipeline.UploadCommonRegisters | src/core/hw/gfxip/gfx6/gfx6GraphicsPipeline.cpp:1067-1079 | On the load path the ten registers SetupCommonRegisters owns are appended in the source's order. The image is unchanged otherwise. |
| Pipeline.GraphicsPipeline.SetupCommonContext | src/core/hw/gfxip/gfx6/gfx6GraphicsPipeline.cpp:929-1065 | The context becomes the common-register setup of the old one, and per-sample shading is reported exactly when PS_ITER_SAMPLE is set. |
| Pipeline.GraphicsPipeline.SetupCommonRegisters | src/core/hw/gfxip/gfx6/gfx6GraphicsPipeline.cpp:920-1083 | It sets the context, the per-sample flag, the late-alloc register, both IA_MULTI_VGT_PARAM copies and both uploaded images, each as its specification function says. |
| Pipeline.GraphicsPipeline.SetupNonShaderContext | src/core/hw/gfxip/gfx6/gfx6GraphicsPipeline.cpp:792-907 | The context becomes the non-shader setup of the old one. |
| Pipeline.GraphicsPipeline.SetupColorRegisters | src/core/hw/gfxip/gfx6/gfx6GraphicsPipeline.cpp:805-907 | The colour block of the non-shader context is the colour setup function of the create info, whose mode, mask and RB+ properties are the ColorState lemmas. |
| Pipeline.GraphicsPipeline.AccumulateTargetMask | src/core/hw/gfxip/gfx6/gfx6GraphicsPipeline.cpp:807-811 | The loop over the targets ORs each written target's mask into its nibble: the start word OR the target mask word. |
| Pipeline.GraphicsPipeline.SelectColorMode | src/core/hw/gfxip/gfx6/gfx6GraphicsPipeline.cpp:813-859 | The mode and ROP3 chosen for the pipeline's pass and logic operation are those of the colour mode function. |
| Pipeline.GraphicsPipeline.SetupRbPlus | src/core/hw/gfxip/gfx6/gfx6GraphicsPipeline.cpp:876-899 | The RB+ step sets the SX registers and dual-quad bit as the RB+ step function does. |
| Pipeline.GraphicsPipeline.SetupRbPlusSlots | src/core/hw/gfxip/gfx6/gfx6GraphicsPipeline.cpp:885-893 | The loop over the eight slots programs each slot as the per-slot RB+ setup does. |
| Pipeline.GraphicsPipeline.UploadNonShaderRegisters | src/core/hw/gfxip/gfx6/gfx6GraphicsPipeline.cpp:909-915 | On the load path the four registers SetupNonShaderRegisters owns are appended in order. |
| Pipeline.GraphicsPipeline.SetupNonShaderRegisters | src/core/hw/gfxip/gfx6/gfx6GraphicsPipeline.cpp:792-916 | It sets the context and the uploaded context image as their specification functions say. |
| Pipeline.GraphicsPipeline.WriteContextCommandsSetPath | src/core/hw/gfxip/gfx6/gfx6GraphicsPipeline.cpp:718-758 | It appends exactly the set-path sequence. |
| Pipeline.GraphicsPipeline.WriteSetPathImageRegs | src/core/hw/gfxip/gfx6/gfx6GraphicsPipeline.cpp:723-746 | It appends the twelve register writes of the set path. |
| Pipeline.GraphicsPipeline.WriteContextCommands | src/core/hw/gfxip/gfx6/gfx6GraphicsPipeline.cpp:663-703 | It appends exactly the context command sequence. |
| Pipeline.GraphicsPipeline.WriteContextImage | src/core/hw/gfxip/gfx6/gfx6GraphicsPipeline.cpp:673-693 | It appends the load, or the set path and the chunks' context commands. |
| Pipeline.GraphicsPipeline.WriteChunkContextCommands | src/core/hw/gfxip/gfx6/gfx6GraphicsPipeline.cpp:677-685 | It appends the context commands of the chunks present. |
| Pipeline.GraphicsPipeline.WriteShCommands | src/core/hw/gfxip/gfx6/gfx6GraphicsPipeline.cpp:601-658 | It appends exactly the SH command sequence. |
| Pipeline.GraphicsPipeline.WriteShCommandsFor | src/core/hw/gfxip/gfx6/gfx6GraphicsPipeline.cpp:617-655 | Given the dynamic stage infos, it appends the SH command sequence. |
| Pipeline.GraphicsPipeline.WriteChunkShCommands | src/core/hw/gfxip/gfx6/gfx6GraphicsPipeline.cpp:627-654 | It appends the SH commands of the chunks present, each with its two stages' infos. |
| Pipeline.GraphicsPipeline.WriteDbShaderControl | src/core/hw/gfxip/gfx6/gfx6GraphicsPipeline.cpp:99-128 | It appends the draw-time DB_SHADER_CONTROL write exactly under the workaround. |
| Pipeline.GraphicsPipeline.RecordLoadPath | src/core/hw/gfxip/gfx6/gfx6GraphicsPipeline.cpp:378-384 | On the load path, the load path records the uploader's addresses and counts. It is unchanged otherwise. |

## Left out

- Unpacking the binary's metadata (MsgPack) and the `Result` plumbing of `HwlInit` are not modelled. The register map and the metadata entries are inputs.
- `HwlInit` as one method is not modelled. Its steps are modelled one by one: `EarlyInit`, `SetupCommonRegisters`, `SetupNonShaderRegisters` and `RecordLoadPath`. How the two uploaded images line up with the set path is stated by `UploadedImageMatchesSetPath` and `SetPathRegsAreUploaded`.
- Relocation and upload of the code and data to GPU memory are not modelled, nor `uploader.End()` or prefetching. These are foreign allocation and copy calls. The uploader's enable flag, addresses and counts are inputs.
- The pipeline chunks (LS/HS, ES/GS, VS/PS) are not modelled: their `EarlyInit`/`LateInit` and their commands are not part of this model. Their commands appear as opaque entries in the stream, and the counts they add to the load info are not added.
- `EarlyInit` reads VGT_TF_PARAM together with the other stage registers, before the signature scan. The source reads it after the scan. The scan does not read or write that register, so the order makes no difference.
- Hashing (MetroHash64 of the context registers and the signature), event logging, `UpdateRingSizes`, `GetShaderStats` and the `Snprintf`, thread and OS-allocation helpers are not modelled. They are foreign or I/O.
- `AllocCb::Free` only forwards to the callback. The callback is an opaque function.
- PM4 packet encoding is not modelled: the packet builders live in the command stream and command utility classes (`CmdStream`, `CmdUtil`), which are not part of this model. Commands are abstract values.
- Debug-only assertions are not modelled.
- The chip's pipe configuration, the device's late-alloc limit and the after-PS toss point are taken as inputs from the device and its settings.
- `Random`'s constructor is platform code that seeds from the clock. The model's constructor takes the generator's constants (modulus, multiplier, increment) and its first state as parameters; `Generate` accepts any state, so no reduction of the seed is assumed.
- CommonRegisters.DbRenderOverrideWithinRmwMask is stated for a register that starts at zero, the value a new pipeline holds. It is not stated for an arbitrary starting value.
