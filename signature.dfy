// The user-data signature of a graphics pipeline: for every active hardware
// stage, which of its sixteen user-data registers receive which logical
// user-data entries, plus the registers that hold special values (spill table,
// vertex-buffer table, stream-out table, vertex offset, draw index, view id).
// It is resolved by scanning the pipeline binary's register image
// (GraphicsPipeline::SetupSignatureForStageFromElf and SetupSignatureFromElf).
module Signature {
  import opened Common
  import opened Registers

  /** Hardware shader stages, in the order the signature stores them. */
  datatype HwStage = Ls | Hs | Es | Gs | Vs | Ps
  {
    function Index(): (i: nat)
      ensures i < NumHwStages
    {
      match this
      case Ls => 0
      case Hs => 1
      case Es => 2
      case Gs => 3
      case Vs => 4
      case Ps => 5
    }
  }

  const NumHwStages: nat := 6

  /** Address of the first user-data register of each hardware stage. */
  function BaseRegAddr(stage: HwStage): (a: u16)
    ensures a >= mmSPI_SHADER_USER_DATA_PS_0 && a + NumUserDataRegs < TWO_16
  {
    match stage
    case Ls => mmSPI_SHADER_USER_DATA_LS_0
    case Hs => mmSPI_SHADER_USER_DATA_HS_0
    case Es => mmSPI_SHADER_USER_DATA_ES_0
    case Gs => mmSPI_SHADER_USER_DATA_GS_0
    case Vs => mmSPI_SHADER_USER_DATA_VS_0
    case Ps => mmSPI_SHADER_USER_DATA_PS_0
  }

  /** Address of the last (sixteenth) user-data register of each hardware stage. */
  function LastRegAddr(stage: HwStage): u16
  {
    BaseRegAddr(stage) + NumUserDataRegs - 1
  }

  /** Register address 0 means "not mapped". */
  const UserDataNotMapped: u16 := 0
  const NoUserDataSpilling: u16 := 0xFFFF
  const MaxUserDataEntries: bv32 := 128

  // Reserved user-data mapping values of the pipeline ABI.
  const GlobalTable: bv32 := 0x1000_0000
  const PerShaderTable: bv32 := 0x1000_0001
  const SpillTable: bv32 := 0x1000_0002
  const BaseVertex: bv32 := 0x1000_0003
  const BaseInstance: bv32 := 0x1000_0004
  const DrawIndex: bv32 := 0x1000_0005
  const Workgroup: bv32 := 0x1000_0006
  const EsGsLdsSize: bv32 := 0x1000_000A
  const ViewId: bv32 := 0x1000_000B
  const StreamOutTable: bv32 := 0x1000_000C
  const VertexBufferTable: bv32 := 0x1000_000F
  const BaseIndex: bv32 := 0x1000_0012
  const Log2IndexSize: bv32 := 0x1000_0014

  type EntryArray = s: seq<bv8> | |s| == NumUserDataRegs
    witness [0, 0, 0, 0, 0, 0, 0, 0, 0, 0, 0, 0, 0, 0, 0, 0]

  /** The user-data layout of one hardware stage. */
  datatype UserDataEntryMap = UserDataEntryMap(
    mappedEntry: EntryArray,
    userSgprCount: u8,
    firstUserSgprRegAddr: u16,
    spillTableRegAddr: u16)

  const NullEntryMap: UserDataEntryMap :=
    UserDataEntryMap([0, 0, 0, 0, 0, 0, 0, 0, 0, 0, 0, 0, 0, 0, 0, 0], 0, UserDataNotMapped, UserDataNotMapped)

  type StageMaps = s: seq<UserDataEntryMap> | |s| == NumHwStages
    witness [NullEntryMap, NullEntryMap, NullEntryMap, NullEntryMap, NullEntryMap, NullEntryMap]

  type StageAddrs = s: seq<u16> | |s| == NumHwStages
    witness [0, 0, 0, 0, 0, 0]

  type StageHashes = s: seq<nat> | |s| == NumHwStages
    witness [0, 0, 0, 0, 0, 0]

  datatype GraphicsPipelineSignature = GraphicsPipelineSignature(
    stage: StageMaps,
    vertexBufTableRegAddr: u16,
    streamOutTableRegAddr: u16,
    vertexOffsetRegAddr: u16,
    drawIndexRegAddr: u16,
    spillThreshold: u16,
    userDataLimit: u16,
    viewIdRegAddr: StageAddrs,
    userDataHash: StageHashes)

  /** The signature of a pipeline before anything is resolved. */
  const NullGfxSignature: GraphicsPipelineSignature := GraphicsPipelineSignature(
    [NullEntryMap, NullEntryMap, NullEntryMap, NullEntryMap, NullEntryMap, NullEntryMap],
    UserDataNotMapped, UserDataNotMapped, UserDataNotMapped, UserDataNotMapped,
    NoUserDataSpilling, 0, [0, 0, 0, 0, 0, 0], [0, 0, 0, 0, 0, 0])

  /** What one present user-data register value means. */
  datatype UserDataRole =
    | StreamOutTableAlias
    | IndirectTableAlias
    | LogicalEntry(entry: bv8)
    | GlobalTableSlot
    | PerShaderTableSlot
    | SpillTableSlot
    | WorkgroupSlot
    | VertexBufferTableSlot
    | StreamOutTableSlot
    | BaseVertexSlot
    | BaseInstanceSlot
    | DrawIndexSlot
    | EsGsLdsSizeSlot
    | Gfx9OnlySlot
    | ViewIdSlot
    | Unrecognised

  /** The per-pipeline facts a stage scan needs besides the register image. */
  datatype ScanContext = ScanContext(
    streamOutTableEntryPlus1: bv32,
    indirectTableEntryPlus1: bv32,
    vbTableStage: HwStage,
    hasEsGsLdsSizeReg: bool)

  /**
   * Classifies a present value: the two backward-compatible aliases win
   * (compared in 32-bit arithmetic, so 0xFFFFFFFF matches an absent alias),
   * then logical entries, then the reserved roles in source order.  The
   * EsGs LDS size role only applies when the caller provided somewhere to
   * record it.
   */
  function Classify(value: bv32, ctx: ScanContext): (role: UserDataRole)
    ensures role.LogicalEntry? <==> IsEntryValue(value, ctx)
    ensures role.LogicalEntry? ==> role.entry as bv32 == value
    ensures role == StreamOutTableAlias <==> value + 1 == ctx.streamOutTableEntryPlus1
    ensures role == IndirectTableAlias <==>
              value + 1 != ctx.streamOutTableEntryPlus1 && value + 1 == ctx.indirectTableEntryPlus1
  {
    if value + 1 == ctx.streamOutTableEntryPlus1 then StreamOutTableAlias
    else if value + 1 == ctx.indirectTableEntryPlus1 then IndirectTableAlias
    else if value < MaxUserDataEntries then LogicalEntry(value as bv8)
    else if value == GlobalTable then GlobalTableSlot
    else if value == PerShaderTable then PerShaderTableSlot
    else if value == SpillTable then SpillTableSlot
    else if value == Workgroup then WorkgroupSlot
    else if value == VertexBufferTable then VertexBufferTableSlot
    else if value == StreamOutTable then StreamOutTableSlot
    else if value == BaseVertex then BaseVertexSlot
    else if value == BaseInstance then BaseInstanceSlot
    else if value == DrawIndex then DrawIndexSlot
    else if value == EsGsLdsSize && ctx.hasEsGsLdsSizeReg then EsGsLdsSizeSlot
    else if value == BaseIndex || value == Log2IndexSize then Gfx9OnlySlot
    else if value == ViewId then ViewIdSlot
    else Unrecognised
  }

  /** A value that is neither alias and lies below the logical entry limit names a logical entry. */
  predicate IsEntryValue(value: bv32, ctx: ScanContext)
  {
    value + 1 != ctx.streamOutTableEntryPlus1 && value + 1 != ctx.indirectTableEntryPlus1 &&
    value < MaxUserDataEntries
  }

  /** The resolver's state: the signature and the EsGs LDS size register handed back to the caller. */
  datatype ScanState = ScanState(sig: GraphicsPipelineSignature, esGsLdsSizeReg: u16)

  /** Logical entry registers can be recorded at `offset` relative to the stage map's first user-SGPR. */
  predicate CanRecordAt(m: UserDataEntryMap, offset: nat)
  {
    m.firstUserSgprRegAddr == UserDataNotMapped ||
    (m.firstUserSgprRegAddr <= offset < m.firstUserSgprRegAddr + NumUserDataRegs)
  }

  /** Records logical entry `entry` found at register `offset` in a stage map. */
  function RecordEntry(m: UserDataEntryMap, offset: u16, entry: bv8): (r: UserDataEntryMap)
    requires offset != UserDataNotMapped && CanRecordAt(m, offset)
    ensures r.firstUserSgprRegAddr ==
              if m.firstUserSgprRegAddr == UserDataNotMapped then offset else m.firstUserSgprRegAddr
    ensures r.spillTableRegAddr == m.spillTableRegAddr
  {
    var first := if m.firstUserSgprRegAddr == UserDataNotMapped then offset else m.firstUserSgprRegAddr;
    var id := offset - first;
    m.(firstUserSgprRegAddr := first,
       mappedEntry := m.mappedEntry[id := entry],
       userSgprCount := Max(id + 1, m.userSgprCount))
  }

  /** The effect of one present register value on the resolver's state. */
  function ApplyRole(s: ScanState, stage: HwStage, offset: u16, role: UserDataRole, ctx: ScanContext): (r: ScanState)
    requires offset > 0
    requires role.LogicalEntry? ==> CanRecordAt(s.sig.stage[stage.Index()], offset)
  {
    var i := stage.Index();
    var sig := s.sig;
    match role
    case StreamOutTableAlias =>
      if stage == Vs then s.(sig := sig.(streamOutTableRegAddr := offset)) else s
    case IndirectTableAlias =>
      if stage == ctx.vbTableStage then s.(sig := sig.(vertexBufTableRegAddr := offset)) else s
    case LogicalEntry(entry) =>
      s.(sig := sig.(stage := sig.stage[i := RecordEntry(sig.stage[i], offset, entry)]))
    case SpillTableSlot =>
      s.(sig := sig.(stage := sig.stage[i := sig.stage[i].(spillTableRegAddr := offset)]))
    case VertexBufferTableSlot => s.(sig := sig.(vertexBufTableRegAddr := offset))
    case StreamOutTableSlot => s.(sig := sig.(streamOutTableRegAddr := offset))
    case BaseVertexSlot => s.(sig := sig.(vertexOffsetRegAddr := offset))
    case BaseInstanceSlot => s.(sig := sig.(vertexOffsetRegAddr := offset - 1))
    case DrawIndexSlot => s.(sig := sig.(drawIndexRegAddr := offset))
    case EsGsLdsSizeSlot => s.(esGsLdsSizeReg := offset)
    case ViewIdSlot => s.(sig := sig.(viewIdRegAddr := sig.viewIdRegAddr[i := offset]))
    case _ => s
  }

  /** Register `a` holds a logical user-data entry. */
  predicate BindingAt(regs: RegisterVector, ctx: ScanContext, a: nat)
  {
    a < TWO_16 && a in regs && IsEntryValue(regs[a], ctx)
  }

  /** Two stage maps agree on everything logical entries decide. */
  predicate SameLayout(m1: UserDataEntryMap, m2: UserDataEntryMap)
  {
    m1.mappedEntry == m2.mappedEntry && m1.userSgprCount == m2.userSgprCount &&
    m1.firstUserSgprRegAddr == m2.firstUserSgprRegAddr
  }

  /** One iteration of the stage scan: absent registers change nothing. */
  function ScanStep(s: ScanState, regs: RegisterVector, stage: HwStage, offset: u16, ctx: ScanContext): (r: ScanState)
    requires offset > 0 && CanRecordAt(s.sig.stage[stage.Index()], offset)
    ensures var m := s.sig.stage[stage.Index()];
            SameLayout(r.sig.stage[stage.Index()],
                       if BindingAt(regs, ctx, offset) then RecordEntry(m, offset, regs[offset] as bv8) else m)
  {
    if offset in regs then ApplyRole(s, stage, offset, Classify(regs[offset], ctx), ctx) else s
  }

  /** The scan of registers `[lo, hi)` of `stage`, in increasing address order. */
  function ScanRange(s0: ScanState, regs: RegisterVector, stage: HwStage, ctx: ScanContext, lo: u16, hi: nat): (r: ScanState)
    requires 0 < lo <= hi <= lo + NumUserDataRegs && hi < TWO_16
    requires s0.sig.stage[stage.Index()].firstUserSgprRegAddr == UserDataNotMapped
    ensures var first := r.sig.stage[stage.Index()].firstUserSgprRegAddr;
            first == UserDataNotMapped || lo <= first < hi
    ensures forall j :: 0 <= j < NumHwStages && j != stage.Index() ==> r.sig.stage[j] == s0.sig.stage[j]
    ensures !ctx.hasEsGsLdsSizeReg ==> r.esGsLdsSizeReg == s0.esGsLdsSizeReg
    ensures r.sig.spillThreshold == s0.sig.spillThreshold && r.sig.userDataLimit == s0.sig.userDataLimit
    decreases hi - lo
  {
    if hi == lo then s0
    else
      var prev := ScanRange(s0, regs, stage, ctx, lo, hi - 1);
      ScanStep(prev, regs, stage, hi - 1, ctx)
  }

  /** Extending a stage scan by one register applies that register's step, which may record at it. */
  lemma ScanRangeNext(s0: ScanState, regs: RegisterVector, stage: HwStage, ctx: ScanContext, lo: u16, hi: u16)
    requires 0 < lo <= hi < lo + NumUserDataRegs && hi + 1 < TWO_16
    requires s0.sig.stage[stage.Index()].firstUserSgprRegAddr == UserDataNotMapped
    ensures var prev := ScanRange(s0, regs, stage, ctx, lo, hi);
            && CanRecordAt(prev.sig.stage[stage.Index()], hi)
            && ScanRange(s0, regs, stage, ctx, lo, hi + 1) == ScanStep(prev, regs, stage, hi, ctx)
  {
  }

  /** The logical entries of registers `[lo, hi)` recorded into `m0`, lowest address first. */
  function RecordRange(m0: UserDataEntryMap, regs: RegisterVector, ctx: ScanContext, lo: u16, hi: nat)
    : (m: UserDataEntryMap)
    requires 0 < lo <= hi <= lo + NumUserDataRegs && hi < TWO_16
    requires m0.firstUserSgprRegAddr == UserDataNotMapped
    ensures m.firstUserSgprRegAddr == UserDataNotMapped || lo <= m.firstUserSgprRegAddr < hi
    decreases hi - lo
  {
    if hi == lo then m0
    else
      var prev := RecordRange(m0, regs, ctx, lo, hi - 1);
      if BindingAt(regs, ctx, hi - 1) then RecordEntry(prev, hi - 1, regs[hi - 1] as bv8) else prev
  }

  /** Recording the same entry into maps of the same layout gives maps of the same layout. */
  lemma RecordEntrySameLayout(m1: UserDataEntryMap, m2: UserDataEntryMap, offset: u16, entry: bv8)
    requires SameLayout(m1, m2) && offset != UserDataNotMapped && CanRecordAt(m1, offset)
    ensures SameLayout(RecordEntry(m1, offset, entry), RecordEntry(m2, offset, entry))
  {
  }

  /**
   * The layout a stage scan leaves is the one `RecordRange` describes: the
   * scan records exactly the logical entries, whatever else it finds.
   */
  lemma {:induction false} ScanRangeLayout(s0: ScanState, regs: RegisterVector, stage: HwStage, ctx: ScanContext,
                                           lo: u16, hi: nat)
    requires 0 < lo <= hi <= lo + NumUserDataRegs && hi < TWO_16
    requires s0.sig.stage[stage.Index()].firstUserSgprRegAddr == UserDataNotMapped
    ensures SameLayout(ScanRange(s0, regs, stage, ctx, lo, hi).sig.stage[stage.Index()],
                       RecordRange(s0.sig.stage[stage.Index()], regs, ctx, lo, hi))
    decreases hi - lo
  {
    if hi > lo {
      ScanRangeLayout(s0, regs, stage, ctx, lo, hi - 1);
      var prev := ScanRange(s0, regs, stage, ctx, lo, hi - 1);
      if BindingAt(regs, ctx, hi - 1) {
        RecordEntrySameLayout(prev.sig.stage[stage.Index()], RecordRange(s0.sig.stage[stage.Index()], regs, ctx, lo, hi - 1),
                              hi - 1, regs[hi - 1] as bv8);
      }
    }
  }

  /**
   * Recording `[lo, hi)` into a null stage map: the first user-SGPR is the
   * lowest register holding a logical entry, and the map stays null exactly
   * when there is none.
   */
  lemma {:induction false} RecordRangeFirst(m0: UserDataEntryMap, regs: RegisterVector, ctx: ScanContext,
                                            lo: u16, hi: nat)
    requires 0 < lo <= hi <= lo + NumUserDataRegs && hi < TWO_16
    requires m0.firstUserSgprRegAddr == UserDataNotMapped && m0.userSgprCount == 0
    ensures var m := RecordRange(m0, regs, ctx, lo, hi);
            && (m.firstUserSgprRegAddr == UserDataNotMapped <==>
                  forall a :: lo <= a < hi ==> !BindingAt(regs, ctx, a))
            && (m.firstUserSgprRegAddr != UserDataNotMapped ==>
                  BindingAt(regs, ctx, m.firstUserSgprRegAddr) &&
                  forall a :: lo <= a < m.firstUserSgprRegAddr ==> !BindingAt(regs, ctx, a))
            && (m.userSgprCount == 0 <==> m.firstUserSgprRegAddr == UserDataNotMapped)
    decreases hi - lo
  {
    if hi > lo {
      RecordRangeFirst(m0, regs, ctx, lo, hi - 1);
    }
  }

  /**
   * Every register of `[lo, hi)` holding a logical entry lies within the
   * sixteen registers from the first user-SGPR and inside the user-SGPR count.
   */
  lemma {:induction false} RecordRangeSpan(m0: UserDataEntryMap, regs: RegisterVector, ctx: ScanContext,
                                           lo: u16, hi: nat)
    requires 0 < lo <= hi <= lo + NumUserDataRegs && hi < TWO_16
    requires m0.firstUserSgprRegAddr == UserDataNotMapped && m0.userSgprCount == 0
    ensures var m := RecordRange(m0, regs, ctx, lo, hi);
            forall a :: lo <= a < hi && BindingAt(regs, ctx, a) ==>
              m.firstUserSgprRegAddr <= a < m.firstUserSgprRegAddr + NumUserDataRegs &&
              a - m.firstUserSgprRegAddr < m.userSgprCount
    decreases hi - lo
  {
    if hi > lo {
      RecordRangeSpan(m0, regs, ctx, lo, hi - 1);
      RecordRangeFirst(m0, regs, ctx, lo, hi - 1);
    }
  }

  /** A register of `[lo, hi)` holding a logical entry has that entry stored at its distance from the first. */
  lemma {:induction false} RecordRangeEntryAt(m0: UserDataEntryMap, regs: RegisterVector, ctx: ScanContext,
                                              lo: u16, hi: nat, a: nat)
    requires 0 < lo <= hi <= lo + NumUserDataRegs && hi < TWO_16
    requires m0.firstUserSgprRegAddr == UserDataNotMapped && m0.userSgprCount == 0
    requires lo <= a < hi && BindingAt(regs, ctx, a)
    ensures var m := RecordRange(m0, regs, ctx, lo, hi);
            m.firstUserSgprRegAddr <= a < m.firstUserSgprRegAddr + NumUserDataRegs &&
            m.mappedEntry[a - m.firstUserSgprRegAddr] == regs[a] as bv8
    decreases hi - lo
  {
    RecordRangeFirst(m0, regs, ctx, lo, hi - 1);
    if a < hi - 1 {
      RecordRangeEntryAt(m0, regs, ctx, lo, hi - 1, a);
    }
  }

  /** The user-SGPR count is tight: its last register holds a logical entry. */
  lemma {:induction false} RecordRangeCountTight(m0: UserDataEntryMap, regs: RegisterVector, ctx: ScanContext,
                                                 lo: u16, hi: nat)
    requires 0 < lo <= hi <= lo + NumUserDataRegs && hi < TWO_16
    requires m0.firstUserSgprRegAddr == UserDataNotMapped && m0.userSgprCount == 0
    ensures var m := RecordRange(m0, regs, ctx, lo, hi);
            m.userSgprCount != 0 ==>
              m.firstUserSgprRegAddr + m.userSgprCount <= hi &&
              BindingAt(regs, ctx, m.firstUserSgprRegAddr + m.userSgprCount - 1)
    decreases hi - lo
  {
    if hi > lo {
      RecordRangeCountTight(m0, regs, ctx, lo, hi - 1);
      RecordRangeFirst(m0, regs, ctx, lo, hi - 1);
    }
  }

  /** Slots no logical entry lands in keep the value they had before the scan. */
  lemma {:induction false} RecordRangeOthers(m0: UserDataEntryMap, regs: RegisterVector, ctx: ScanContext,
                                             lo: u16, hi: nat)
    requires 0 < lo <= hi <= lo + NumUserDataRegs && hi < TWO_16
    requires m0.firstUserSgprRegAddr == UserDataNotMapped && m0.userSgprCount == 0
    ensures var m := RecordRange(m0, regs, ctx, lo, hi);
            forall j :: 0 <= j < NumUserDataRegs &&
                        (m.firstUserSgprRegAddr == UserDataNotMapped ||
                         !BindingAt(regs, ctx, m.firstUserSgprRegAddr + j)) ==>
              m.mappedEntry[j] == m0.mappedEntry[j]
    decreases hi - lo
  {
    if hi > lo {
      RecordRangeOthers(m0, regs, ctx, lo, hi - 1);
    }
  }

  /**
   * A value that matches the stream-out alias never becomes a logical entry:
   * it leaves the stage map as it was and sets the stream-out table register
   * exactly when the stage is the hardware VS.
   */
  lemma StreamOutAliasEffect(s: ScanState, regs: RegisterVector, stage: HwStage, offset: u16, ctx: ScanContext)
    requires offset > 0 && offset in regs
    requires CanRecordAt(s.sig.stage[stage.Index()], offset)
    requires regs[offset] + 1 == ctx.streamOutTableEntryPlus1
    ensures var r := ScanStep(s, regs, stage, offset, ctx);
            && r.sig.stage == s.sig.stage
            && r.sig.vertexBufTableRegAddr == s.sig.vertexBufTableRegAddr
            && r.sig.streamOutTableRegAddr == (if stage == Vs then offset else s.sig.streamOutTableRegAddr)
  {
  }

  /**
   * A value that matches the indirect-table alias (and not the stream-out one)
   * never becomes a logical entry: it sets the vertex-buffer table register
   * exactly when the stage is the vertex-buffer-table stage.
   */
  lemma IndirectAliasEffect(s: ScanState, regs: RegisterVector, stage: HwStage, offset: u16, ctx: ScanContext)
    requires offset > 0 && offset in regs
    requires CanRecordAt(s.sig.stage[stage.Index()], offset)
    requires regs[offset] + 1 != ctx.streamOutTableEntryPlus1
    requires regs[offset] + 1 == ctx.indirectTableEntryPlus1
    ensures var r := ScanStep(s, regs, stage, offset, ctx);
            && r.sig.stage == s.sig.stage
            && r.sig.streamOutTableRegAddr == s.sig.streamOutTableRegAddr
            && r.sig.vertexBufTableRegAddr ==
                 (if stage == ctx.vbTableStage then offset else s.sig.vertexBufTableRegAddr)
  {
  }

  /**
   * A reserved value (one matching neither alias) never becomes a logical
   * entry and leaves the stage's layout alone; each reserved value it names
   * sets its own register address and nothing else: the stage's spill table,
   * the vertex-buffer table, the stream-out table, the vertex offset (base
   * vertex at the register, base instance one register past it), the draw
   * index, the stage's view id, or the EsGs LDS size register when the scan
   * was given one. The global, per-shader, workgroup and Gfx9-only values
   * and unknown values change nothing.
   */
  lemma ReservedValueEffect(s: ScanState, regs: RegisterVector, stage: HwStage, offset: u16, ctx: ScanContext)
    requires offset > 0 && offset in regs
    requires CanRecordAt(s.sig.stage[stage.Index()], offset)
    requires regs[offset] + 1 != ctx.streamOutTableEntryPlus1 && regs[offset] + 1 != ctx.indirectTableEntryPlus1
    requires regs[offset] >= MaxUserDataEntries
    ensures var r := ScanStep(s, regs, stage, offset, ctx);
            var v := regs[offset];
            var i := stage.Index();
            && SameLayout(r.sig.stage[i], s.sig.stage[i])
            && (forall j :: 0 <= j < NumHwStages && j != i ==> r.sig.stage[j] == s.sig.stage[j])
            && r.sig.stage[i].spillTableRegAddr == (if v == SpillTable then offset else s.sig.stage[i].spillTableRegAddr)
            && r.sig.vertexBufTableRegAddr ==
                 (if v == VertexBufferTable then offset else s.sig.vertexBufTableRegAddr)
            && r.sig.streamOutTableRegAddr == (if v == StreamOutTable then offset else s.sig.streamOutTableRegAddr)
            && r.sig.vertexOffsetRegAddr ==
                 (if v == BaseVertex then offset else if v == BaseInstance then offset - 1
                  else s.sig.vertexOffsetRegAddr)
            && r.sig.drawIndexRegAddr == (if v == DrawIndex then offset else s.sig.drawIndexRegAddr)
            && r.sig.viewIdRegAddr == (if v == ViewId then s.sig.viewIdRegAddr[i := offset] else s.sig.viewIdRegAddr)
            && r.esGsLdsSizeReg ==
                 (if v == EsGsLdsSize && ctx.hasEsGsLdsSizeReg then offset else s.esGsLdsSizeReg)
            && (v in {GlobalTable, PerShaderTable, Workgroup, BaseIndex, Log2IndexSize} ==> r == s)
  {
  }

  /** The stage whose user data carries the vertex-buffer table: Ls with tessellation, else Es with GS, else Vs. */
  function VbTableStage(tessEnabled: bool, gsEnabled: bool): (st: HwStage)
    ensures st == Ls <==> tessEnabled
    ensures st == Es <==> !tessEnabled && gsEnabled
    ensures st == Vs <==> !tessEnabled && !gsEnabled
  {
    if tessEnabled then Ls else if gsEnabled then Es else Vs
  }

  // ---- Compaction of the view-id register addresses ----

  /** The mapped (non-zero) addresses of `s`, in order. */
  function Mapped(s: seq<u16>): (r: seq<u16>)
    ensures |r| <= |s|
    ensures forall x :: x in r ==> x != UserDataNotMapped && x in s
  {
    if s == [] then []
    else if s[0] != UserDataNotMapped then [s[0]] + Mapped(s[1..])
    else Mapped(s[1..])
  }

  function Zeros(n: nat): (r: seq<u16>)
    ensures |r| == n && forall k :: 0 <= k < n ==> r[k] == 0
  {
    if n == 0 then [] else [0] + Zeros(n - 1)
  }

  /**
   * Packs the view-id register addresses so that every mapped one comes
   * first, in order, followed by unmapped slots.
   */
  function PackViewIds(s: StageAddrs): (r: StageAddrs)
    ensures forall x :: x in r && x != UserDataNotMapped ==> x in s
  {
    var m := Mapped(s);
    m + Zeros(NumHwStages - |m|)
  }

  lemma {:induction false} MappedCount(s: seq<u16>, x: u16)
    requires x != UserDataNotMapped
    ensures multiset(Mapped(s))[x] == multiset(s)[x]
  {
    if s != [] {
      MappedCount(s[1..], x);
      assert s == [s[0]] + s[1..];
    }
  }

  /**
   * After packing, the mapped addresses come first, in their original order,
   * followed only by unmapped slots.
   */
  lemma PackViewIdsFrontLoads(s: StageAddrs)
    ensures var r := PackViewIds(s);
            var n := |Mapped(s)|;
            && r[..n] == Mapped(s)
            && (forall k :: 0 <= k < n ==> r[k] != UserDataNotMapped)
            && (forall k :: n <= k < NumHwStages ==> r[k] == UserDataNotMapped)
  {
    var m := Mapped(s);
    assert forall k :: 0 <= k < |m| ==> PackViewIds(s)[k] == m[k] && m[k] in m;
  }

  /** Packing neither loses nor duplicates a mapped address. */
  lemma PackViewIdsKeepsMapped(s: StageAddrs, x: u16)
    requires x != UserDataNotMapped
    ensures multiset(PackViewIds(s))[x] == multiset(s)[x]
  {
    var m := Mapped(s);
    MappedCount(s, x);
    assert multiset(PackViewIds(s)) == multiset(m) + multiset(Zeros(NumHwStages - |m|));
    assert x !in Zeros(NumHwStages - |m|);
  }

  // ---- The whole-pipeline resolver ----

  /** The metadata entries the resolver reads (absent entries are None). */
  datatype PipelineMetadata = PipelineMetadata(
    streamOutTableAddress: Option<bv32>,
    indirectUserDataTableAddress: Option<bv32>,
    spillThreshold: Option<u32>,
    userDataLimit: Option<u32>)

  /** Absent metadata maps to "not mapped"; present values are truncated to 16 bits. */
  function EntryPlus1(addr: Option<bv32>): (r: bv32)
    ensures r <= 0xFFFF
    ensures addr.None? ==> r == 0
    ensures addr.Some? ==> r == addr.value & 0xFFFF
  {
    if addr.None? then 0 else addr.value & 0xFFFF
  }

  function ContextFor(md: PipelineMetadata, tessEnabled: bool, gsEnabled: bool, hasEsGsLdsSizeReg: bool): ScanContext
  {
    ScanContext(EntryPlus1(md.streamOutTableAddress), EntryPlus1(md.indirectUserDataTableAddress),
                VbTableStage(tessEnabled, gsEnabled), hasEsGsLdsSizeReg)
  }

  /** The scan of all sixteen user-data registers of `stage`. */
  function ScanStage(s: ScanState, regs: RegisterVector, stage: HwStage, ctx: ScanContext): (r: ScanState)
    requires s.sig.stage[stage.Index()].firstUserSgprRegAddr == UserDataNotMapped
    ensures forall j :: 0 <= j < NumHwStages && j != stage.Index() ==> r.sig.stage[j] == s.sig.stage[j]
    ensures !ctx.hasEsGsLdsSizeReg ==> r.esGsLdsSizeReg == s.esGsLdsSizeReg
  {
    ScanRange(s, regs, stage, ctx, BaseRegAddr(stage), BaseRegAddr(stage) + NumUserDataRegs)
  }

  /** No stage's user data has been scanned yet. */
  predicate Unscanned(sig: GraphicsPipelineSignature)
  {
    && sig.stage[0].firstUserSgprRegAddr == UserDataNotMapped
    && sig.stage[1].firstUserSgprRegAddr == UserDataNotMapped
    && sig.stage[2].firstUserSgprRegAddr == UserDataNotMapped
    && sig.stage[3].firstUserSgprRegAddr == UserDataNotMapped
    && sig.stage[4].firstUserSgprRegAddr == UserDataNotMapped
    && sig.stage[5].firstUserSgprRegAddr == UserDataNotMapped
  }

  /** The hardware stages a pipeline runs: LS/HS with tessellation, ES/GS with a GS, VS and PS always. */
  predicate StageActive(stage: HwStage, tessEnabled: bool, gsEnabled: bool)
  {
    match stage
    case Ls | Hs => tessEnabled
    case Es | Gs => gsEnabled
    case Vs | Ps => true
  }

  /** The stages whose scan is given somewhere to record the EsGs LDS size register: the hardware GS and VS. */
  predicate RecordsEsGsLdsSize(stage: HwStage)
  {
    stage == Gs || stage == Vs
  }

  /** The scan context of one stage of a pipeline. */
  function StageContext(md: PipelineMetadata, tessEnabled: bool, gsEnabled: bool, stage: HwStage): ScanContext
  {
    ContextFor(md, tessEnabled, gsEnabled, RecordsEsGsLdsSize(stage))
  }

  /** A signature with the metadata's spill threshold and user-data limit (truncated to 16 bits) where present. */
  function WithLimits(sig: GraphicsPipelineSignature, md: PipelineMetadata): (r: GraphicsPipelineSignature)
    ensures r.stage == sig.stage
  {
    var sig1 := if md.spillThreshold.Some? then sig.(spillThreshold := md.spillThreshold.value % TWO_16) else sig;
    if md.userDataLimit.Some? then sig1.(userDataLimit := md.userDataLimit.value % TWO_16) else sig1
  }

  /** The signature after resolving, and the EsGs LDS size registers handed back for the hardware GS and VS. */
  datatype SignatureResult = SignatureResult(sig: GraphicsPipelineSignature, esGsLdsSizeRegGs: u16, esGsLdsSizeRegVs: u16)

  /** A scan of a stage given nowhere to record the EsGs LDS size register. */
  function ScanSig(sig: GraphicsPipelineSignature, regs: RegisterVector, stage: HwStage, ctx: ScanContext)
    : (r: GraphicsPipelineSignature)
    requires sig.stage[stage.Index()].firstUserSgprRegAddr == UserDataNotMapped
    ensures forall j :: 0 <= j < NumHwStages && j != stage.Index() ==> r.stage[j] == sig.stage[j]
  {
    ScanStage(ScanState(sig, 0), regs, stage, ctx).sig
  }

  /** The LS and HS scans, when tessellation is on. */
  function TessScan(sig: GraphicsPipelineSignature, md: PipelineMetadata, regs: RegisterVector,
                    tessEnabled: bool, gsEnabled: bool): (r: GraphicsPipelineSignature)
    requires sig.stage[Ls.Index()].firstUserSgprRegAddr == UserDataNotMapped
    requires sig.stage[Hs.Index()].firstUserSgprRegAddr == UserDataNotMapped
    ensures forall j :: 2 <= j < NumHwStages ==> r.stage[j] == sig.stage[j]
    ensures !tessEnabled ==> r == sig
  {
    if tessEnabled then
      ScanSig(ScanSig(sig, regs, Ls, StageContext(md, tessEnabled, gsEnabled, Ls)),
              regs, Hs, StageContext(md, tessEnabled, gsEnabled, Hs))
    else sig
  }

  /** The ES and GS scans, when the pipeline has a GS; the GS scan is given the caller's EsGs LDS size register. */
  function GsScan(sig: GraphicsPipelineSignature, gsReg0: u16, md: PipelineMetadata, regs: RegisterVector,
                  tessEnabled: bool, gsEnabled: bool): (r: ScanState)
    requires sig.stage[Es.Index()].firstUserSgprRegAddr == UserDataNotMapped
    requires sig.stage[Gs.Index()].firstUserSgprRegAddr == UserDataNotMapped
    ensures forall j :: 0 <= j < NumHwStages && j != 2 && j != 3 ==> r.sig.stage[j] == sig.stage[j]
    ensures !gsEnabled ==> r == ScanState(sig, gsReg0)
  {
    if gsEnabled then
      ScanStage(ScanState(ScanSig(sig, regs, Es, StageContext(md, tessEnabled, gsEnabled, Es)), gsReg0),
                regs, Gs, StageContext(md, tessEnabled, gsEnabled, Gs))
    else ScanState(sig, gsReg0)
  }

  /** The VS scan, given the caller's EsGs LDS size register. */
  function VsScan(sig: GraphicsPipelineSignature, vsReg0: u16, md: PipelineMetadata, regs: RegisterVector,
                  tessEnabled: bool, gsEnabled: bool): (r: ScanState)
    requires sig.stage[Vs.Index()].firstUserSgprRegAddr == UserDataNotMapped
    ensures forall j :: 0 <= j < NumHwStages && j != 4 ==> r.sig.stage[j] == sig.stage[j]
  {
    ScanStage(ScanState(sig, vsReg0), regs, Vs, StageContext(md, tessEnabled, gsEnabled, Vs))
  }

  /**
   * The whole resolver: limits from the metadata, then the active stages
   * scanned in the order LS, HS, ES, GS, VS, PS (the GS and VS scans given
   * the caller's EsGs LDS size registers), then the view-id addresses packed.
   */
  function ResolveSignature(md: PipelineMetadata, regs: RegisterVector, tessEnabled: bool, gsEnabled: bool,
                            sig0: GraphicsPipelineSignature, gsReg0: u16, vsReg0: u16): (r: SignatureResult)
    requires Unscanned(sig0)
    ensures !tessEnabled ==> r.sig.stage[Ls.Index()] == sig0.stage[Ls.Index()] && r.sig.stage[Hs.Index()] == sig0.stage[Hs.Index()]
    ensures !gsEnabled ==> r.sig.stage[Es.Index()] == sig0.stage[Es.Index()] && r.sig.stage[Gs.Index()] == sig0.stage[Gs.Index()]
    ensures !gsEnabled ==> r.esGsLdsSizeRegGs == gsReg0
  {
    var sig2 := TessScan(WithLimits(sig0, md), md, regs, tessEnabled, gsEnabled);
    var sGs := GsScan(sig2, gsReg0, md, regs, tessEnabled, gsEnabled);
    var sVs := VsScan(sGs.sig, vsReg0, md, regs, tessEnabled, gsEnabled);
    var sig3 := ScanSig(sVs.sig, regs, Ps, StageContext(md, tessEnabled, gsEnabled, Ps));
    SignatureResult(sig3.(viewIdRegAddr := PackViewIds(sig3.viewIdRegAddr)), sGs.esGsLdsSizeReg, sVs.esGsLdsSizeReg)
  }

  /** Register `a` holds a value the scan classifies as `role`. */
  predicate HasRole(regs: RegisterVector, ctx: ScanContext, a: nat, role: UserDataRole)
  {
    a in regs && Classify(regs[a], ctx) == role
  }

  /** The highest register of `[lo, hi)` holding a value of role `role`, if any. */
  function LastRoleAt(regs: RegisterVector, ctx: ScanContext, role: UserDataRole, lo: nat, hi: nat): (r: Option<nat>)
    requires lo <= hi
    ensures r.Some? ==> lo <= r.value < hi && HasRole(regs, ctx, r.value, role)
    ensures r.Some? ==> forall a :: r.value < a < hi ==> !HasRole(regs, ctx, a, role)
    ensures r.None? ==> forall a :: lo <= a < hi ==> !HasRole(regs, ctx, a, role)
    decreases hi - lo
  {
    if hi == lo then None
    else if HasRole(regs, ctx, hi - 1, role) then Some(hi - 1)
    else LastRoleAt(regs, ctx, role, lo, hi - 1)
  }

  /**
   * A stage scan leaves the stage's spill table register at the last of its
   * registers holding the spill table; where there is none, at the value it
   * had before the scan.
   */
  lemma {:induction false} ScanRangeSpillTable(s0: ScanState, regs: RegisterVector, stage: HwStage, ctx: ScanContext,
                                               lo: u16, hi: nat)
    requires 0 < lo <= hi <= lo + NumUserDataRegs && hi < TWO_16
    requires s0.sig.stage[stage.Index()].firstUserSgprRegAddr == UserDataNotMapped
    ensures var spill := LastRoleAt(regs, ctx, SpillTableSlot, lo, hi);
            ScanRange(s0, regs, stage, ctx, lo, hi).sig.stage[stage.Index()].spillTableRegAddr ==
              if spill.Some? then spill.value else s0.sig.stage[stage.Index()].spillTableRegAddr
    decreases hi - lo
  {
    if hi > lo {
      ScanRangeSpillTable(s0, regs, stage, ctx, lo, hi - 1);
      ScanRangeNext(s0, regs, stage, ctx, lo, hi - 1);
      var prev := ScanRange(s0, regs, stage, ctx, lo, hi - 1);
      ScanStepRoles(prev, regs, stage, hi - 1, ctx, 0);
    }
  }

  /**
   * A stage scan leaves the stage's view-id register at the last of its
   * registers holding the view id (where there is none, at the value it had
   * before the scan), and every other stage's view-id register as it was.
   */
  lemma {:induction false} ScanRangeViewId(s0: ScanState, regs: RegisterVector, stage: HwStage, ctx: ScanContext,
                                           lo: u16, hi: nat, k: nat)
    requires 0 < lo <= hi <= lo + NumUserDataRegs && hi < TWO_16
    requires s0.sig.stage[stage.Index()].firstUserSgprRegAddr == UserDataNotMapped
    requires k < NumHwStages
    ensures var view := LastRoleAt(regs, ctx, ViewIdSlot, lo, hi);
            ScanRange(s0, regs, stage, ctx, lo, hi).sig.viewIdRegAddr[k] ==
              if k == stage.Index() && view.Some? then view.value else s0.sig.viewIdRegAddr[k]
    decreases hi - lo
  {
    if hi > lo {
      ScanRangeViewId(s0, regs, stage, ctx, lo, hi - 1, k);
      ScanRangeNext(s0, regs, stage, ctx, lo, hi - 1);
      ScanStepRoles(ScanRange(s0, regs, stage, ctx, lo, hi - 1), regs, stage, hi - 1, ctx, k);
    }
  }

  /**
   * One scan step sets the stage's spill table register, or its view-id
   * register, exactly when its register holds that role.
   */
  lemma ScanStepRoles(s: ScanState, regs: RegisterVector, stage: HwStage, offset: u16, ctx: ScanContext, k: nat)
    requires offset > 0 && CanRecordAt(s.sig.stage[stage.Index()], offset)
    requires k < NumHwStages
    ensures var r := ScanStep(s, regs, stage, offset, ctx);
            var i := stage.Index();
            && r.sig.stage[i].spillTableRegAddr ==
                 (if HasRole(regs, ctx, offset, SpillTableSlot) then offset else s.sig.stage[i].spillTableRegAddr)
            && r.sig.viewIdRegAddr[k] ==
                 (if k == i && HasRole(regs, ctx, offset, ViewIdSlot) then offset else s.sig.viewIdRegAddr[k])
  {
  }

  /** The stages scanned after `stage` by the resolver leave its spill table and view-id registers alone. */
  lemma ScanStageKeepsOthers(s: ScanState, regs: RegisterVector, stage: HwStage, ctx: ScanContext, other: HwStage)
    requires s.sig.stage[stage.Index()].firstUserSgprRegAddr == UserDataNotMapped
    requires other != stage
    ensures var r := ScanStage(s, regs, stage, ctx);
            && r.sig.stage[other.Index()] == s.sig.stage[other.Index()]
            && r.sig.viewIdRegAddr[other.Index()] == s.sig.viewIdRegAddr[other.Index()]
  {
    ScanRangeViewId(s, regs, stage, ctx, BaseRegAddr(stage), BaseRegAddr(stage) + NumUserDataRegs, other.Index());
  }

  /** A stage's spill table register and view-id register. */
  function StageRoles(sig: GraphicsPipelineSignature, stage: HwStage): (u16, u16)
  {
    (sig.stage[stage.Index()].spillTableRegAddr, sig.viewIdRegAddr[stage.Index()])
  }

  /**
   * The spill table and view-id registers a stage's scan leaves: each is the
   * last of the stage's sixteen registers holding that role, or the value
   * before the scan when none does.
   */
  function ScannedRoles(before: (u16, u16), regs: RegisterVector, ctx: ScanContext, stage: HwStage): (u16, u16)
  {
    var spill := LastRoleAt(regs, ctx, SpillTableSlot, BaseRegAddr(stage), BaseRegAddr(stage) + NumUserDataRegs);
    var view := LastRoleAt(regs, ctx, ViewIdSlot, BaseRegAddr(stage), BaseRegAddr(stage) + NumUserDataRegs);
    (if spill.Some? then spill.value else before.0, if view.Some? then view.value else before.1)
  }

  /** A stage's whole scan sets its spill table and view-id registers as `ScannedRoles` says. */
  lemma ScanStageRoles(s: ScanState, regs: RegisterVector, stage: HwStage, ctx: ScanContext)
    requires s.sig.stage[stage.Index()].firstUserSgprRegAddr == UserDataNotMapped
    ensures StageRoles(ScanStage(s, regs, stage, ctx).sig, stage) == ScannedRoles(StageRoles(s.sig, stage), regs, ctx, stage)
  {
    var lo := BaseRegAddr(stage);
    ScanRangeSpillTable(s, regs, stage, ctx, lo, lo + NumUserDataRegs);
    ScanRangeViewId(s, regs, stage, ctx, lo, lo + NumUserDataRegs, stage.Index());
  }

  /** The LS and HS scans set those stages' registers and keep every other stage's. */
  lemma TessScanRoles(sig: GraphicsPipelineSignature, md: PipelineMetadata, regs: RegisterVector,
                      tessEnabled: bool, gsEnabled: bool, stage: HwStage)
    requires sig.stage[Ls.Index()].firstUserSgprRegAddr == UserDataNotMapped
    requires sig.stage[Hs.Index()].firstUserSgprRegAddr == UserDataNotMapped
    ensures StageRoles(TessScan(sig, md, regs, tessEnabled, gsEnabled), stage) ==
              if tessEnabled && (stage == Ls || stage == Hs)
              then ScannedRoles(StageRoles(sig, stage), regs, StageContext(md, tessEnabled, gsEnabled, stage), stage)
              else StageRoles(sig, stage)
  {
    if tessEnabled {
      var sLs := ScanSig(sig, regs, Ls, StageContext(md, tessEnabled, gsEnabled, Ls));
      if stage == Ls {
        ScanStageRoles(ScanState(sig, 0), regs, Ls, StageContext(md, tessEnabled, gsEnabled, Ls));
      } else {
        ScanStageKeepsOthers(ScanState(sig, 0), regs, Ls, StageContext(md, tessEnabled, gsEnabled, Ls), stage);
      }
      if stage == Hs {
        ScanStageRoles(ScanState(sLs, 0), regs, Hs, StageContext(md, tessEnabled, gsEnabled, Hs));
      } else {
        ScanStageKeepsOthers(ScanState(sLs, 0), regs, Hs, StageContext(md, tessEnabled, gsEnabled, Hs), stage);
      }
    }
  }

  /** The ES and GS scans set those stages' registers and keep every other stage's. */
  lemma GsScanRoles(sig: GraphicsPipelineSignature, gsReg0: u16, md: PipelineMetadata, regs: RegisterVector,
                    tessEnabled: bool, gsEnabled: bool, stage: HwStage)
    requires sig.stage[Es.Index()].firstUserSgprRegAddr == UserDataNotMapped
    requires sig.stage[Gs.Index()].firstUserSgprRegAddr == UserDataNotMapped
    ensures StageRoles(GsScan(sig, gsReg0, md, regs, tessEnabled, gsEnabled).sig, stage) ==
              if gsEnabled && (stage == Es || stage == Gs)
              then ScannedRoles(StageRoles(sig, stage), regs, StageContext(md, tessEnabled, gsEnabled, stage), stage)
              else StageRoles(sig, stage)
  {
    if gsEnabled {
      var sEs := ScanSig(sig, regs, Es, StageContext(md, tessEnabled, gsEnabled, Es));
      if stage == Es {
        ScanStageRoles(ScanState(sig, 0), regs, Es, StageContext(md, tessEnabled, gsEnabled, Es));
      } else {
        ScanStageKeepsOthers(ScanState(sig, 0), regs, Es, StageContext(md, tessEnabled, gsEnabled, Es), stage);
      }
      if stage == Gs {
        ScanStageRoles(ScanState(sEs, gsReg0), regs, Gs, StageContext(md, tessEnabled, gsEnabled, Gs));
      } else {
        ScanStageKeepsOthers(ScanState(sEs, gsReg0), regs, Gs, StageContext(md, tessEnabled, gsEnabled, Gs), stage);
      }
    }
  }

  /** A single stage's scan sets that stage's registers and keeps every other stage's. */
  lemma ScanStageRolesAt(s: ScanState, regs: RegisterVector, scanned: HwStage, ctx: ScanContext, stage: HwStage)
    requires s.sig.stage[scanned.Index()].firstUserSgprRegAddr == UserDataNotMapped
    ensures StageRoles(ScanStage(s, regs, scanned, ctx).sig, stage) ==
              if stage == scanned then ScannedRoles(StageRoles(s.sig, stage), regs, ctx, stage)
              else StageRoles(s.sig, stage)
  {
    if stage == scanned {
      ScanStageRoles(s, regs, scanned, ctx);
    } else {
      ScanStageKeepsOthers(s, regs, scanned, ctx, stage);
    }
  }

  /** The stage map a stage's scan leaves, as far as logical entries decide it. */
  function StageLayout(md: PipelineMetadata, regs: RegisterVector, tessEnabled: bool, gsEnabled: bool,
                       m0: UserDataEntryMap, stage: HwStage): UserDataEntryMap
    requires m0.firstUserSgprRegAddr == UserDataNotMapped
  {
    RecordRange(m0, regs, StageContext(md, tessEnabled, gsEnabled, stage), BaseRegAddr(stage),
                BaseRegAddr(stage) + NumUserDataRegs)
  }

  /** Scanning a stage gives its map the layout its logical entries describe. */
  lemma ScanStageLayout(s: ScanState, regs: RegisterVector, stage: HwStage, md: PipelineMetadata,
                        tessEnabled: bool, gsEnabled: bool)
    requires s.sig.stage[stage.Index()].firstUserSgprRegAddr == UserDataNotMapped
    ensures SameLayout(ScanStage(s, regs, stage, StageContext(md, tessEnabled, gsEnabled, stage)).sig.stage[stage.Index()],
                       StageLayout(md, regs, tessEnabled, gsEnabled, s.sig.stage[stage.Index()], stage))
  {
    ScanRangeLayout(s, regs, stage, StageContext(md, tessEnabled, gsEnabled, stage), BaseRegAddr(stage),
                    BaseRegAddr(stage) + NumUserDataRegs);
  }

  /** With tessellation, the LS and HS maps get their layouts. */
  lemma TessScanLayout(sig: GraphicsPipelineSignature, md: PipelineMetadata, regs: RegisterVector,
                       tessEnabled: bool, gsEnabled: bool, stage: HwStage)
    requires sig.stage[Ls.Index()].firstUserSgprRegAddr == UserDataNotMapped
    requires sig.stage[Hs.Index()].firstUserSgprRegAddr == UserDataNotMapped
    requires tessEnabled && (stage == Ls || stage == Hs)
    ensures SameLayout(TessScan(sig, md, regs, tessEnabled, gsEnabled).stage[stage.Index()],
                       StageLayout(md, regs, tessEnabled, gsEnabled, sig.stage[stage.Index()], stage))
  {
    var sLs := ScanSig(sig, regs, Ls, StageContext(md, tessEnabled, gsEnabled, Ls));
    if stage == Ls {
      ScanStageLayout(ScanState(sig, 0), regs, Ls, md, tessEnabled, gsEnabled);
    } else {
      ScanStageLayout(ScanState(sLs, 0), regs, Hs, md, tessEnabled, gsEnabled);
    }
  }

  /** With a GS, the ES and GS maps get their layouts. */
  lemma GsScanLayout(sig: GraphicsPipelineSignature, gsReg0: u16, md: PipelineMetadata, regs: RegisterVector,
                     tessEnabled: bool, gsEnabled: bool, stage: HwStage)
    requires sig.stage[Es.Index()].firstUserSgprRegAddr == UserDataNotMapped
    requires sig.stage[Gs.Index()].firstUserSgprRegAddr == UserDataNotMapped
    requires gsEnabled && (stage == Es || stage == Gs)
    ensures SameLayout(GsScan(sig, gsReg0, md, regs, tessEnabled, gsEnabled).sig.stage[stage.Index()],
                       StageLayout(md, regs, tessEnabled, gsEnabled, sig.stage[stage.Index()], stage))
  {
    var sEs := ScanSig(sig, regs, Es, StageContext(md, tessEnabled, gsEnabled, Es));
    if stage == Es {
      ScanStageLayout(ScanState(sig, 0), regs, Es, md, tessEnabled, gsEnabled);
    } else {
      ScanStageLayout(ScanState(sEs, gsReg0), regs, Gs, md, tessEnabled, gsEnabled);
    }
  }

  /**
   * Only the active stages are scanned: an inactive stage keeps its map, and
   * an active one ends with the layout of the logical entries in its sixteen
   * registers.
   */
  lemma ResolveSignatureStageMaps(md: PipelineMetadata, regs: RegisterVector, tessEnabled: bool, gsEnabled: bool,
                                  sig0: GraphicsPipelineSignature, gsReg0: u16, vsReg0: u16, stage: HwStage)
    requires Unscanned(sig0)
    ensures var r := ResolveSignature(md, regs, tessEnabled, gsEnabled, sig0, gsReg0, vsReg0);
            var i := stage.Index();
            && (!StageActive(stage, tessEnabled, gsEnabled) ==> r.sig.stage[i] == sig0.stage[i])
            && (StageActive(stage, tessEnabled, gsEnabled) ==>
                  SameLayout(r.sig.stage[i], StageLayout(md, regs, tessEnabled, gsEnabled, sig0.stage[i], stage)))
  {
    var sig1 := WithLimits(sig0, md);
    var sig2 := TessScan(sig1, md, regs, tessEnabled, gsEnabled);
    var sGs := GsScan(sig2, gsReg0, md, regs, tessEnabled, gsEnabled);
    var sVs := VsScan(sGs.sig, vsReg0, md, regs, tessEnabled, gsEnabled);
    var r := ResolveSignature(md, regs, tessEnabled, gsEnabled, sig0, gsReg0, vsReg0);
    var i := stage.Index();
    if stage == Ps {
      ScanStageLayout(ScanState(sVs.sig, 0), regs, Ps, md, tessEnabled, gsEnabled);
    } else {
      assert r.sig.stage[i] == sVs.sig.stage[i];
      if stage == Vs {
        ScanStageLayout(ScanState(sGs.sig, vsReg0), regs, Vs, md, tessEnabled, gsEnabled);
      } else {
        assert sVs.sig.stage[i] == sGs.sig.stage[i];
        if stage == Es || stage == Gs {
          if gsEnabled { GsScanLayout(sig2, gsReg0, md, regs, tessEnabled, gsEnabled, stage); }
        } else {
          assert sGs.sig.stage[i] == sig2.stage[i];
          if tessEnabled { TessScanLayout(sig1, md, regs, tessEnabled, gsEnabled, stage); }
        }
      }
    }
  }

  /**
   * Resolving from the null signature: in every active stage, a register
   * holding a logical entry has that entry recorded at its distance from
   * the stage's first user-SGPR, which lies in the stage's range at or below
   * it, and the user-SGPR count covers it.
   */
  lemma ResolvedBindings(md: PipelineMetadata, regs: RegisterVector, tessEnabled: bool, gsEnabled: bool,
                         gsReg0: u16, vsReg0: u16, stage: HwStage, a: nat)
    requires StageActive(stage, tessEnabled, gsEnabled)
    requires BaseRegAddr(stage) <= a <= LastRegAddr(stage)
    requires BindingAt(regs, StageContext(md, tessEnabled, gsEnabled, stage), a)
    ensures var m := ResolveSignature(md, regs, tessEnabled, gsEnabled, NullGfxSignature, gsReg0, vsReg0).sig.stage[stage.Index()];
            && BaseRegAddr(stage) <= m.firstUserSgprRegAddr <= a < m.firstUserSgprRegAddr + NumUserDataRegs
            && m.mappedEntry[a - m.firstUserSgprRegAddr] == regs[a] as bv8
            && a - m.firstUserSgprRegAddr < m.userSgprCount
  {
    ResolveSignatureStageMaps(md, regs, tessEnabled, gsEnabled, NullGfxSignature, gsReg0, vsReg0, stage);
    assert NullGfxSignature.stage[stage.Index()] == NullEntryMap;
    LaidOutBinding(md, regs, tessEnabled, gsEnabled, stage, a);
  }

  /** The binding facts of the layout a stage's scan gives an empty map. */
  lemma LaidOutBinding(md: PipelineMetadata, regs: RegisterVector, tessEnabled: bool, gsEnabled: bool,
                       stage: HwStage, a: nat)
    requires BaseRegAddr(stage) <= a <= LastRegAddr(stage)
    requires BindingAt(regs, StageContext(md, tessEnabled, gsEnabled, stage), a)
    ensures var m := StageLayout(md, regs, tessEnabled, gsEnabled, NullEntryMap, stage);
            && BaseRegAddr(stage) <= m.firstUserSgprRegAddr <= a < m.firstUserSgprRegAddr + NumUserDataRegs
            && m.mappedEntry[a - m.firstUserSgprRegAddr] == regs[a] as bv8
            && a - m.firstUserSgprRegAddr < m.userSgprCount
  {
    var ctx := StageContext(md, tessEnabled, gsEnabled, stage);
    var lo := BaseRegAddr(stage);
    var hi := BaseRegAddr(stage) + NumUserDataRegs;
    RecordRangeEntryAt(NullEntryMap, regs, ctx, lo, hi, a);
    RecordRangeSpan(NullEntryMap, regs, ctx, lo, hi);
  }

  /**
   * The metadata's spill threshold and user-data limit replace the
   * signature's when present; the EsGs LDS size register for the GS is
   * only looked for when the pipeline has a GS.
   */
  lemma ResolveSignatureLimits(md: PipelineMetadata, regs: RegisterVector, tessEnabled: bool, gsEnabled: bool,
                               sig0: GraphicsPipelineSignature, gsReg0: u16, vsReg0: u16)
    requires Unscanned(sig0)
    ensures var r := ResolveSignature(md, regs, tessEnabled, gsEnabled, sig0, gsReg0, vsReg0);
            && r.sig.spillThreshold == (if md.spillThreshold.Some? then md.spillThreshold.value % TWO_16 else sig0.spillThreshold)
            && r.sig.userDataLimit == (if md.userDataLimit.Some? then md.userDataLimit.value % TWO_16 else sig0.userDataLimit)
            && (!gsEnabled ==> r.esGsLdsSizeRegGs == gsReg0)
  {
  }

  /**
   * In every active stage, the resolved spill table register is the last of
   * the stage's sixteen registers holding the spill table (or the starting
   * signature's when none does), and the last register holding the view id
   * is among the packed view-id registers.
   */
  lemma ResolvedSpillTableAndViewId(md: PipelineMetadata, regs: RegisterVector, tessEnabled: bool, gsEnabled: bool,
                                    sig0: GraphicsPipelineSignature, gsReg0: u16, vsReg0: u16, stage: HwStage)
    requires Unscanned(sig0)
    requires StageActive(stage, tessEnabled, gsEnabled)
    ensures var r := ResolveSignature(md, regs, tessEnabled, gsEnabled, sig0, gsReg0, vsReg0);
            var ctx := StageContext(md, tessEnabled, gsEnabled, stage);
            var spill := LastRoleAt(regs, ctx, SpillTableSlot, BaseRegAddr(stage), BaseRegAddr(stage) + NumUserDataRegs);
            var view := LastRoleAt(regs, ctx, ViewIdSlot, BaseRegAddr(stage), BaseRegAddr(stage) + NumUserDataRegs);
            && r.sig.stage[stage.Index()].spillTableRegAddr ==
                 (if spill.Some? then spill.value else sig0.stage[stage.Index()].spillTableRegAddr)
            && (view.Some? ==> view.value in r.sig.viewIdRegAddr)
  {
    var i := stage.Index();
    var sig3 := PreFinalSignature(md, regs, tessEnabled, gsEnabled, sig0, gsReg0, vsReg0, stage);
    var view := LastRoleAt(regs, StageContext(md, tessEnabled, gsEnabled, stage), ViewIdSlot,
                           BaseRegAddr(stage), BaseRegAddr(stage) + NumUserDataRegs);
    if view.Some? {
      PackViewIdsKeepsMapped(sig3.viewIdRegAddr, view.value);
      assert sig3.viewIdRegAddr[i] in multiset(sig3.viewIdRegAddr);
    }
  }

  /**
   * The signature before the view-id registers are packed: an active
   * stage's spill table and view-id registers are the ones its own scan
   * set, since the scans of the other stages leave them alone.
   */
  lemma PreFinalSignature(md: PipelineMetadata, regs: RegisterVector, tessEnabled: bool, gsEnabled: bool,
                          sig0: GraphicsPipelineSignature, gsReg0: u16, vsReg0: u16, stage: HwStage)
    returns (sig3: GraphicsPipelineSignature)
    requires Unscanned(sig0)
    requires StageActive(stage, tessEnabled, gsEnabled)
    ensures ResolveSignature(md, regs, tessEnabled, gsEnabled, sig0, gsReg0, vsReg0).sig ==
              sig3.(viewIdRegAddr := PackViewIds(sig3.viewIdRegAddr))
    ensures StageRoles(sig3, stage) ==
              ScannedRoles(StageRoles(sig0, stage), regs, StageContext(md, tessEnabled, gsEnabled, stage), stage)
  {
    var sig1 := WithLimits(sig0, md);
    var sig2 := TessScan(sig1, md, regs, tessEnabled, gsEnabled);
    var sGs := GsScan(sig2, gsReg0, md, regs, tessEnabled, gsEnabled);
    var sVs := VsScan(sGs.sig, vsReg0, md, regs, tessEnabled, gsEnabled);
    sig3 := ScanSig(sVs.sig, regs, Ps, StageContext(md, tessEnabled, gsEnabled, Ps));
    assert StageRoles(sig1, stage) == StageRoles(sig0, stage);
    TessScanRoles(sig1, md, regs, tessEnabled, gsEnabled, stage);
    GsScanRoles(sig2, gsReg0, md, regs, tessEnabled, gsEnabled, stage);
    ScanStageRolesAt(ScanState(sGs.sig, vsReg0), regs, Vs, StageContext(md, tessEnabled, gsEnabled, Vs), stage);
    ScanStageRolesAt(ScanState(sVs.sig, 0), regs, Ps, StageContext(md, tessEnabled, gsEnabled, Ps), stage);
  }
}
