// Colour-buffer state of a Gfx6-family graphics pipeline: the ROP3 code of a
// logic op, the RB+ ("render back-end plus") export tables, the per-slot
// update of the three SX registers, and the steps that build CB_TARGET_MASK,
// CB_SHADER_MASK, CB_COLOR_CONTROL and DB_ALPHA_TO_MASK
// (GraphicsPipeline::SetupNonShaderRegisters and its helpers).
module ColorState {
  import opened Common
  import opened Registers
  import opened Device

  const MaxColorTargets: nat := 8

  // ---- ROP3 codes ----

  /** The sixteen logic ops, in the order of their enum values. */
  datatype LogicOp =
    | Copy | Clear | And | AndReverse | AndInverted | Noop | Xor | Or
    | Nor | Equiv | Invert | OrReverse | CopyInverted | OrInverted | Nand | Set

  /** The ROP3 code the colour block is programmed with for a logic op. */
  function Rop3(op: LogicOp): (code: bv8)
    ensures code == ApplyLogicOp(op, 0xCC, 0xAA)
  {
    match op
    case Copy => 0xCC
    case Clear => 0x00
    case And => 0x88
    case AndReverse => 0x44
    case AndInverted => 0x22
    case Noop => 0xAA
    case Xor => 0x66
    case Or => 0xEE
    case Nor => 0x11
    case Equiv => 0x99
    case Invert => 0x55
    case OrReverse => 0xDD
    case CopyInverted => 0x33
    case OrInverted => 0xBB
    case Nand => 0x77
    case Set => 0xFF
  }

  /** What a logic op computes from source `s` and destination `d`, bit by bit. */
  function ApplyLogicOp(op: LogicOp, s: bv8, d: bv8): bv8
  {
    match op
    case Copy => s
    case Clear => 0
    case And => s & d
    case AndReverse => s & !d
    case AndInverted => !s & d
    case Noop => d
    case Xor => s ^ d
    case Or => s | d
    case Nor => !(s | d)
    case Equiv => !(s ^ d)
    case Invert => !d
    case OrReverse => s | !d
    case CopyInverted => !s
    case OrInverted => !s | d
    case Nand => !(s & d)
    case Set => 0xFF
  }

  /**
   * A ROP3 code is the op's truth table: the op applied to the source
   * pattern 0xCC and the destination pattern 0xAA.
   */
  lemma Rop3IsTruthTable(op: LogicOp)
    ensures Rop3(op) == ApplyLogicOp(op, 0xCC, 0xAA)
  {
  }

  /** Distinct logic ops get distinct ROP3 codes. */
  lemma Rop3Injective(a: LogicOp, b: LogicOp)
    requires Rop3(a) == Rop3(b)
    ensures a == b
  {
  }

  // ---- RB+ export tables ----

  /** Channel formats of colour targets; the ones the RB+ table does not name are `OtherFormat`, each keeping its own identity. */
  datatype ChNumFormat =
    | X4Y4Z4W4_Unorm | X4Y4Z4W4_Uscaled
    | X5Y6Z5_Unorm | X5Y6Z5_Uscaled
    | X5Y5Z5W1_Unorm | X5Y5Z5W1_Uscaled
    | X8_Unorm | X8_Snorm | X8_Uscaled | X8_Sscaled | X8_Uint | X8_Sint | X8_Srgb | L8_Unorm | P8_Uint
    | X8Y8_Unorm | X8Y8_Snorm | X8Y8_Uscaled | X8Y8_Sscaled | X8Y8_Uint | X8Y8_Sint | X8Y8_Srgb | L8A8_Unorm
    | X8Y8Z8W8_Unorm | X8Y8Z8W8_Snorm | X8Y8Z8W8_Uscaled | X8Y8Z8W8_Sscaled | X8Y8Z8W8_Uint | X8Y8Z8W8_Sint
    | X8Y8Z8W8_Srgb
    | X11Y11Z10_Float
    | X10Y10Z10W2_Unorm | X10Y10Z10W2_Uscaled
    | X16_Unorm | X16_Snorm | X16_Uscaled | X16_Sscaled | X16_Uint | X16_Sint | X16_Float | L16_Unorm
    | X16Y16_Unorm | X16Y16_Snorm | X16Y16_Uscaled | X16Y16_Sscaled | X16Y16_Uint | X16Y16_Sint | X16Y16_Float
    | X32_Uint | X32_Sint | X32_Float
    | OtherFormat(id: nat)

  /** The SX export ("downconvert") formats and their register codes. */
  datatype SxDownConvert =
    | NoConversion | Export32R | Export32A | Export10_11_11 | Export2_10_10_10 | Export8_8_8_8
    | Export5_6_5 | Export1_5_5_5 | Export4_4_4_4 | Export16_16GR | Export16_16AR
  {
    function Code(): (c: bv32)
      ensures c <= 0xF
    {
      match this
      case NoConversion => 0
      case Export32R => 1
      case Export32A => 2
      case Export10_11_11 => 3
      case Export2_10_10_10 => 4
      case Export8_8_8_8 => 5
      case Export5_6_5 => 6
      case Export1_5_5_5 => 7
      case Export4_4_4_4 => 8
      case Export16_16GR => 9
      case Export16_16AR => 10
    }
  }

  /** The export format a colour target's channel format is down-converted to. */
  function SxDownConvertFormat(f: ChNumFormat): (d: SxDownConvert)
    ensures d == NoConversion <==> f.OtherFormat?
    ensures d != Export32A
  {
    match f
    case X4Y4Z4W4_Unorm | X4Y4Z4W4_Uscaled => Export4_4_4_4
    case X5Y6Z5_Unorm | X5Y6Z5_Uscaled => Export5_6_5
    case X5Y5Z5W1_Unorm | X5Y5Z5W1_Uscaled => Export1_5_5_5
    case X8_Unorm | X8_Snorm | X8_Uscaled | X8_Sscaled | X8_Uint | X8_Sint | X8_Srgb | L8_Unorm | P8_Uint
       | X8Y8_Unorm | X8Y8_Snorm | X8Y8_Uscaled | X8Y8_Sscaled | X8Y8_Uint | X8Y8_Sint | X8Y8_Srgb | L8A8_Unorm
       | X8Y8Z8W8_Unorm | X8Y8Z8W8_Snorm | X8Y8Z8W8_Uscaled | X8Y8Z8W8_Sscaled | X8Y8Z8W8_Uint | X8Y8Z8W8_Sint
       | X8Y8Z8W8_Srgb => Export8_8_8_8
    case X11Y11Z10_Float => Export10_11_11
    case X10Y10Z10W2_Unorm | X10Y10Z10W2_Uscaled => Export2_10_10_10
    case X16_Unorm | X16_Snorm | X16_Uscaled | X16_Sscaled | X16_Uint | X16_Sint | X16_Float | L16_Unorm =>
      Export16_16AR
    case X16Y16_Unorm | X16Y16_Snorm | X16Y16_Uscaled | X16Y16_Sscaled | X16Y16_Uint | X16Y16_Sint
       | X16Y16_Float => Export16_16GR
    case X32_Uint | X32_Sint | X32_Float => Export32R
    case OtherFormat(_) => NoConversion
  }

  /**
   * Blend-optimisation epsilon for an export format: zero for the 32-bit,
   * 16-bit-per-channel and 10/11-bit float exports, growing as the
   * narrowest colour channel shrinks for the packed unorm exports.
   */
  function SxBlendOptEpsilon(d: SxDownConvert): (e: bv32)
    ensures e <= 0xF
  {
    match d
    case Export32R | Export32A | Export16_16GR | Export16_16AR | Export10_11_11 => 0
    case Export2_10_10_10 => 3
    case Export8_8_8_8 => 6
    case Export5_6_5 => 11
    case Export1_5_5_5 => 13
    case Export4_4_4_4 => 15
    case NoConversion => 0
  }

  /** Bits of the narrowest colour (red/green/blue) channel a packed unorm export keeps. */
  function NarrowestColorBits(d: SxDownConvert): nat
  {
    match d
    case Export2_10_10_10 => 10
    case Export8_8_8_8 => 8
    case Export5_6_5 => 5
    case Export1_5_5_5 => 5
    case Export4_4_4_4 => 4
    case _ => 16
  }

  /** A wider narrowest colour channel never gets a larger epsilon. */
  lemma EpsilonShrinksWithPrecision(d: SxDownConvert, e: SxDownConvert)
    requires NarrowestColorBits(d) < NarrowestColorBits(e)
    ensures SxBlendOptEpsilon(e) <= SxBlendOptEpsilon(d)
  {
  }

  /** The epsilon programmed for a slot: zero when the target is not down-converted. */
  function SlotEpsilon(d: SxDownConvert): (e: bv32)
    ensures e <= 0xF
    ensures d == NoConversion ==> e == 0
    ensures d != NoConversion ==> e == SxBlendOptEpsilon(d)
  {
    if d == NoConversion then 0 else SxBlendOptEpsilon(d)
  }

  /**
   * The two blend-optimisation disable bits of a slot: bit 0 (colour) when
   * the write mask writes none of red, green and blue; bit 1 (alpha) when it
   * does not write alpha.
   */
  function SxBlendOptControl(writeMask: bv32): (c: bv32)
    ensures c <= 3
    ensures c & 1 != 0 <==> writeMask & 7 == 0
    ensures c & 2 != 0 <==> writeMask & 8 == 0
  {
    var colorOptDisable: bv32 := if writeMask & 7 != 0 then 0 else 1;
    var alphaOptDisable: bv32 := if writeMask & 8 != 0 then 0 else 2;
    colorOptDisable | alphaOptDisable
  }

  // ---- Per-slot RB+ register update ----

  /** SX_PS_DOWNCONVERT, SX_BLEND_OPT_EPSILON and SX_BLEND_OPT_CONTROL. */
  datatype SxRegs = SxRegs(downconvert: bv32, epsilon: bv32, control: bv32)

  /**
   * The RB+ update of slot `slot`: its downconvert and epsilon groups are
   * replaced, and the two low (disable) bits of its control group.
   */
  function SetupRbPlusRegistersForSlot(sx: SxRegs, slot: bv32, writeMask: bv8, format: ChNumFormat): (r: SxRegs)
    requires slot < 8
    ensures Nibble(r.downconvert, slot) == SxDownConvertFormat(format).Code()
    ensures Nibble(r.epsilon, slot) == if format.OtherFormat? then 0 else SxBlendOptEpsilon(SxDownConvertFormat(format))
    ensures Nibble(r.control, slot) & 3 == SxBlendOptControl(writeMask as bv32)
  {
    var d := SxDownConvertFormat(format);
    SxRegs(SetNibble(sx.downconvert, slot, d.Code()),
           SetNibble(sx.epsilon, slot, SlotEpsilon(d)),
           SetNibbleLow2(sx.control, slot, SxBlendOptControl(writeMask as bv32)))
  }

  /** The slot update stores the target's export format in the slot's downconvert group and no other. */
  lemma RbPlusSlotDownconvert(sx: SxRegs, slot: bv32, writeMask: bv8, format: ChNumFormat, k: bv32)
    requires slot < 8 && k < 8
    ensures var r := SetupRbPlusRegistersForSlot(sx, slot, writeMask, format);
            Nibble(r.downconvert, k) ==
              if k == slot then SxDownConvertFormat(format).Code() else Nibble(sx.downconvert, k)
  {
    if k != slot {
      SetNibbleOther(sx.downconvert, slot, SxDownConvertFormat(format).Code(), k);
    }
  }

  /** The slot update stores the epsilon in the slot's group, zero for an unconverted target, and no other. */
  lemma RbPlusSlotEpsilon(sx: SxRegs, slot: bv32, writeMask: bv8, format: ChNumFormat, k: bv32)
    requires slot < 8 && k < 8
    ensures var r := SetupRbPlusRegistersForSlot(sx, slot, writeMask, format);
            Nibble(r.epsilon, k) ==
              if k != slot then Nibble(sx.epsilon, k)
              else if format.OtherFormat? then 0
              else SxBlendOptEpsilon(SxDownConvertFormat(format))
  {
    if k != slot {
      SetNibbleOther(sx.epsilon, slot, SlotEpsilon(SxDownConvertFormat(format)), k);
    }
  }

  /**
   * The slot update stores the write mask's disable bits in the low two bits
   * of the slot's control group, keeps the group's upper bits, and leaves
   * every other slot alone.
   */
  lemma RbPlusSlotControl(sx: SxRegs, slot: bv32, writeMask: bv8, format: ChNumFormat, k: bv32)
    requires slot < 8 && k < 8
    ensures var r := SetupRbPlusRegistersForSlot(sx, slot, writeMask, format);
            && (k == slot ==> Nibble(r.control, k) & 3 == SxBlendOptControl(writeMask as bv32) &&
                              Nibble(r.control, k) & 0xC == Nibble(sx.control, k) & 0xC)
            && (k != slot ==> Nibble(r.control, k) == Nibble(sx.control, k))
  {
    if k != slot {
      SetNibbleLow2Other(sx.control, slot, SxBlendOptControl(writeMask as bv32), k);
    }
  }

  /** Widening a byte keeps its low bits. */
  lemma MaskBitsOfByte(b: bv8)
    ensures (b as bv32) & 7 == ((b & 7) as bv32)
    ensures (b as bv32) & 8 == ((b & 8) as bv32)
    ensures b & 7 == 0 <==> (b as bv32) & 7 == 0
    ensures b & 8 == 0 <==> (b as bv32) & 8 == 0
  {
  }

  /** Bits 0 and 1 of `x` are those of `c` when `x & 3 == c`. */
  lemma LowTwoBits(x: bv32, c: bv32)
    requires c <= 3 && x & 3 == c
    ensures x & 1 == c & 1 && x & 2 == c & 2
  {
  }

  /** A colour target as the pipeline is created with it. */
  datatype ColorTarget = ColorTarget(channelWriteMask: bv8, format: ChNumFormat)

  type Targets = s: seq<ColorTarget> | |s| == MaxColorTargets
    witness [ColorTarget(0, OtherFormat(0)), ColorTarget(0, OtherFormat(0)), ColorTarget(0, OtherFormat(0)),
             ColorTarget(0, OtherFormat(0)), ColorTarget(0, OtherFormat(0)), ColorTarget(0, OtherFormat(0)),
             ColorTarget(0, OtherFormat(0)), ColorTarget(0, OtherFormat(0))]

  /** The RB+ registers after updating slots `0 .. n-1` in order. */
  function RbPlusSlots(sx: SxRegs, ts: Targets, n: bv32): SxRegs
    requires n <= 8
    decreases n, ts  // naming ts keeps the verifier from unrolling the recursion for a literal n
  {
    if n == 0 then sx
    else SetupRbPlusRegistersForSlot(RbPlusSlots(sx, ts, n - 1), n - 1, ts[n - 1].channelWriteMask, ts[n - 1].format)
  }

  /** After updating slots `0 .. n-1`, each holds its target's export format; later slots are as they were. */
  lemma {:induction false} RbPlusSlotsDownconvert(sx: SxRegs, ts: Targets, n: bv32, k: bv32)
    requires n <= 8 && k < 8
    ensures Nibble(RbPlusSlots(sx, ts, n).downconvert, k) ==
              if k < n then SxDownConvertFormat(ts[k].format).Code() else Nibble(sx.downconvert, k)
    decreases n
  {
    if n > 0 {
      RbPlusSlotsDownconvert(sx, ts, n - 1, k);
      RbPlusSlotDownconvert(RbPlusSlots(sx, ts, n - 1), n - 1, ts[n - 1].channelWriteMask, ts[n - 1].format, k);
    }
  }

  /** After updating slots `0 .. n-1`, each holds its target's epsilon; later slots are as they were. */
  lemma {:induction false} RbPlusSlotsEpsilon(sx: SxRegs, ts: Targets, n: bv32, k: bv32)
    requires n <= 8 && k < 8
    ensures Nibble(RbPlusSlots(sx, ts, n).epsilon, k) ==
              if k < n then SlotEpsilon(SxDownConvertFormat(ts[k].format)) else Nibble(sx.epsilon, k)
    decreases n
  {
    if n > 0 {
      RbPlusSlotsEpsilon(sx, ts, n - 1, k);
      RbPlusSlotEpsilon(RbPlusSlots(sx, ts, n - 1), n - 1, ts[n - 1].channelWriteMask, ts[n - 1].format, k);
    }
  }

  /** After updating slots `0 .. n-1`, each holds its target's disable bits; later slots are as they were. */
  lemma {:induction false} RbPlusSlotsControl(sx: SxRegs, ts: Targets, n: bv32, k: bv32)
    requires n <= 8 && k < 8
    ensures k < n ==> Nibble(RbPlusSlots(sx, ts, n).control, k) & 3 ==
                        SxBlendOptControl(ts[k].channelWriteMask as bv32)
    ensures n <= k ==> Nibble(RbPlusSlots(sx, ts, n).control, k) == Nibble(sx.control, k)
    decreases n
  {
    if n > 0 {
      var prev := RbPlusSlots(sx, ts, n - 1);
      RbPlusSlotsControl(sx, ts, n - 1, k);
      RbPlusSlotControl(prev, n - 1, ts[n - 1].channelWriteMask, ts[n - 1].format, k);
    }
  }

  /**
   * Once all eight slots are updated, slot `k`'s colour-opt-disable bit is
   * set exactly when target `k` writes no colour channel, and its
   * alpha-opt-disable bit exactly when it does not write alpha.
   */
  lemma RbPlusControlBits(sx: SxRegs, ts: Targets, k: bv32)
    requires k < 8
    ensures Nibble(RbPlusSlots(sx, ts, 8).control, k) & 1 != 0 <==> ts[k].channelWriteMask & 7 == 0
    ensures Nibble(RbPlusSlots(sx, ts, 8).control, k) & 2 != 0 <==> ts[k].channelWriteMask & 8 == 0
  {
    RbPlusSlotsControl(sx, ts, 8, k);
    var c := SxBlendOptControl(ts[k].channelWriteMask as bv32);
    MaskBitsOfByte(ts[k].channelWriteMask);
    LowTwoBits(Nibble(RbPlusSlots(sx, ts, 8).control, k), c);
  }

  // ---- CB_TARGET_MASK ----

  /** CB_TARGET_MASK bits contributed by targets `0 .. n-1`: four write-mask bits per target. */
  function TargetMaskWord(ts: Targets, n: bv32): bv32
    requires n <= 8
    decreases n, ts  // as for RbPlusSlots
  {
    if n == 0 then 0
    else TargetMaskWord(ts, n - 1) | ((ts[n - 1].channelWriteMask as bv32 & 0xF) << ((n - 1) << 2))
  }

  /** Slot `k` of the target mask is target `k`'s write mask, limited to four channels. */
  lemma {:induction false} TargetMaskNibbles(ts: Targets, n: bv32, k: bv32)
    requires n <= 8 && k < 8
    ensures Nibble(TargetMaskWord(ts, n), k) == if k < n then ts[k].channelWriteMask as bv32 & 0xF else 0
    decreases n
  {
    if n > 0 {
      var prev := TargetMaskWord(ts, n - 1);
      var v := ts[n - 1].channelWriteMask as bv32 & 0xF;
      TargetMaskNibbles(ts, n - 1, n - 1);
      OrIntoClearNibble(prev, n - 1, v);
      assert TargetMaskWord(ts, n) == SetNibble(prev, n - 1, v);
      if k != n - 1 {
        TargetMaskNibbles(ts, n - 1, k);
        SetNibbleOther(prev, n - 1, v, k);
      }
    }
  }

  /** The four channel-enable bits target `t` contributes to CB_TARGET_MASK. */
  function WriteNibble(t: ColorTarget): bv32
  {
    t.channelWriteMask as bv32 & 0xF
  }

  /** CB_TARGET_MASK for all eight targets, slot by slot. */
  function TargetMask(ts: Targets): bv32
  {
    WriteNibble(ts[0]) | (WriteNibble(ts[1]) << 4) | (WriteNibble(ts[2]) << 8) | (WriteNibble(ts[3]) << 12)
    | (WriteNibble(ts[4]) << 16) | (WriteNibble(ts[5]) << 20) | (WriteNibble(ts[6]) << 24) | (WriteNibble(ts[7]) << 28)
  }

  /** One step of the accumulation, with the target's index given as an integer. */
  lemma TargetMaskWordStep(ts: Targets, n: bv32, i: nat)
    requires 0 < n <= 8 && i == n as int - 1
    ensures TargetMaskWord(ts, n) == TargetMaskWord(ts, n - 1) | (WriteNibble(ts[i]) << ((n - 1) << 2))
  {
  }

  /** Accumulating the targets one by one gives the whole target mask. */
  lemma TargetMaskIsWord(ts: Targets)
    ensures TargetMaskWord(ts, 8) == TargetMask(ts)
  {
    TargetMaskWordStep(ts, 1, 0);
    TargetMaskWordStep(ts, 2, 1);
    TargetMaskWordStep(ts, 3, 2);
    TargetMaskWordStep(ts, 4, 3);
    TargetMaskWordStep(ts, 5, 4);
    TargetMaskWordStep(ts, 6, 5);
    TargetMaskWordStep(ts, 7, 6);
    TargetMaskWordStep(ts, 8, 7);
  }

  // ---- CB_COLOR_CONTROL mode selection ----

  /** CB_COLOR_CONTROL, CB_SHADER_MASK and CB_TARGET_MASK. */
  datatype ColorRegs = ColorRegs(cbColorControl: bv32, cbShaderMask: bv32, cbTargetMask: bv32)

  /** The fixed-function colour passes a pipeline can be created for (internal blits). */
  datatype FixedFunctionPass = FixedFunctionPass(
    fastClearEliminate: bool,
    fmaskDecompress: bool,
    dccDecompress: bool,
    resolveFixedFunc: bool)
  {
    /** One of the three passes that write all four channels of target 0 and nothing else. */
    predicate IsDecompress() { fastClearEliminate || fmaskDecompress || dccDecompress }
  }

  /** Programs MODE (and ROP3 where the pass calls for it). */
  function SetModeAndRop3(cc: bv32, mode: bv32, rop3: bv8): (r: bv32)
    requires mode <= 7
    ensures CbMode(r) == mode && Rop3Field(r) == rop3 as bv32 && DisableDualQuad(r) == DisableDualQuad(cc)
  {
    SetRop3Field(SetCbMode(cc, mode), rop3 as bv32)
  }

  /**
   * The colour mode: the three decompression passes (in priority order) and
   * the fixed-function resolve use ROP3 copy and enable target 0; otherwise a
   * pipeline that exports nothing or writes no target is disabled, and any
   * other is a normal pipeline using its logic op.
   */
  function ColorModeStep(r: ColorRegs, pass: FixedFunctionPass, logicOp: LogicOp): ColorRegs
  {
    if pass.fastClearEliminate then
      ColorRegs(SetModeAndRop3(r.cbColorControl, CB_ELIMINATE_FAST_CLEAR, Rop3(Copy)), 0xF, 0xF)
    else if pass.fmaskDecompress then
      ColorRegs(SetModeAndRop3(r.cbColorControl, CB_FMASK_DECOMPRESS, Rop3(Copy)), 0xF, 0xF)
    else if pass.dccDecompress then
      ColorRegs(SetModeAndRop3(r.cbColorControl, CB_DCC_DECOMPRESS, Rop3(Copy)), 0xF, 0xF)
    else if pass.resolveFixedFunc then
      ColorRegs(SetModeAndRop3(r.cbColorControl, CB_RESOLVE, Rop3(Copy)),
                SetNibble(r.cbShaderMask, 0, 0xF), SetNibble(r.cbTargetMask, 0, 0xF))
    else if r.cbShaderMask == 0 || r.cbTargetMask == 0 then
      r.(cbColorControl := SetCbMode(r.cbColorControl, CB_DISABLE))
    else
      r.(cbColorControl := SetModeAndRop3(r.cbColorControl, CB_NORMAL, Rop3(logicOp)))
  }

  /**
   * Fast-clear eliminate, fmask decompress and DCC decompress enable all four
   * channels of target 0 only, in both masks, and use ROP3 copy.
   */
  lemma DecompressPassesWriteTarget0(r: ColorRegs, pass: FixedFunctionPass, logicOp: LogicOp)
    requires pass.IsDecompress()
    ensures var o := ColorModeStep(r, pass, logicOp);
            && o.cbShaderMask == 0xF && o.cbTargetMask == 0xF
            && Rop3Field(o.cbColorControl) == 0xCC
            && CbMode(o.cbColorControl) ==
                 (if pass.fastClearEliminate then CB_ELIMINATE_FAST_CLEAR
                  else if pass.fmaskDecompress then CB_FMASK_DECOMPRESS else CB_DCC_DECOMPRESS)
  {
  }

  /**
   * The fixed-function resolve enables all four channels of target 0 in
   * both masks, keeps the other targets' channels, and uses ROP3 copy.
   */
  lemma ResolveEnablesTarget0(r: ColorRegs, pass: FixedFunctionPass, logicOp: LogicOp, k: bv32)
    requires !pass.IsDecompress() && pass.resolveFixedFunc
    requires 0 < k < 8
    ensures var o := ColorModeStep(r, pass, logicOp);
            && CbMode(o.cbColorControl) == CB_RESOLVE && Rop3Field(o.cbColorControl) == 0xCC
            && Nibble(o.cbShaderMask, 0) == 0xF && Nibble(o.cbTargetMask, 0) == 0xF
            && Nibble(o.cbShaderMask, k) == Nibble(r.cbShaderMask, k)
            && Nibble(o.cbTargetMask, k) == Nibble(r.cbTargetMask, k)
  {
    SetNibbleOther(r.cbShaderMask, 0, 0xF, k);
    SetNibbleOther(r.cbTargetMask, 0, 0xF, k);
  }

  /**
   * Outside the fixed-function passes the masks are kept; the mode is
   * CB_DISABLE exactly when the shader exports nothing or no target is
   * written, and otherwise CB_NORMAL with the logic op's ROP3 code.
   */
  lemma OrdinaryColorMode(r: ColorRegs, pass: FixedFunctionPass, logicOp: LogicOp)
    requires !pass.IsDecompress() && !pass.resolveFixedFunc
    ensures var o := ColorModeStep(r, pass, logicOp);
            && o.cbShaderMask == r.cbShaderMask && o.cbTargetMask == r.cbTargetMask
            && (CbMode(o.cbColorControl) == CB_DISABLE <==> r.cbShaderMask == 0 || r.cbTargetMask == 0)
            && (CbMode(o.cbColorControl) != CB_DISABLE ==>
                  CbMode(o.cbColorControl) == CB_NORMAL && Rop3Field(o.cbColorControl) == Rop3(logicOp) as bv32)
  {
  }

  /**
   * With dual-source blending, a pixel shader that does not export to both
   * target 0 and target 1 would hang the hardware, so colour writes are
   * disabled; otherwise nothing changes.
   */
  function DualSourceGuard(cc: bv32, cbShaderMask: bv32, dualSourceBlendEnable: bool): (r: bv32)
    ensures dualSourceBlendEnable && (Nibble(cbShaderMask, 0) == 0 || Nibble(cbShaderMask, 1) == 0) ==>
              CbMode(r) == CB_DISABLE && Rop3Field(r) == Rop3Field(cc)
    ensures !(dualSourceBlendEnable && (Nibble(cbShaderMask, 0) == 0 || Nibble(cbShaderMask, 1) == 0)) ==>
              r == cc
  {
    if dualSourceBlendEnable && (cbShaderMask & 0x0F == 0 || cbShaderMask & 0xF0 == 0) then
      SetCbMode(cc, CB_DISABLE)
    else cc
  }

  /**
   * RB+: when enabled and usable (no dual-source blending, not a resolve),
   * DISABLE_DUAL_QUAD is cleared and every slot's SX registers are set up;
   * on an RB+ chip where it is not used, DISABLE_DUAL_QUAD is set.
   */
  function RbPlusStep(cc: bv32, sx: SxRegs, rbPlusEnable: bool, chipRbPlus: bool, dualSourceBlendEnable: bool,
                      ts: Targets): (bv32, SxRegs)
  {
    if rbPlusEnable && !dualSourceBlendEnable && CbMode(cc) != CB_RESOLVE then
      (SetDisableDualQuad(cc, 0), RbPlusSlots(sx, ts, 8))
    else if chipRbPlus then (SetDisableDualQuad(cc, 1), sx)
    else (cc, sx)
  }

  /** The RB+ step never changes MODE or ROP3, and only touches the SX registers when it clears DISABLE_DUAL_QUAD. */
  lemma RbPlusStepKeepsMode(cc: bv32, sx: SxRegs, rbPlusEnable: bool, chipRbPlus: bool, dual: bool, ts: Targets)
    ensures var (c, s) := RbPlusStep(cc, sx, rbPlusEnable, chipRbPlus, dual, ts);
            && CbMode(c) == CbMode(cc) && Rop3Field(c) == Rop3Field(cc)
            && (s != sx ==> DisableDualQuad(c) == 0)
            && (chipRbPlus && DisableDualQuad(c) == 0 ==> rbPlusEnable && !dual)
  {
  }

  /** All inputs of the colour part of the non-shader register setup. */
  datatype ColorInputs = ColorInputs(
    targets: Targets,
    logicOp: LogicOp,
    dualSourceBlendEnable: bool,
    pass: FixedFunctionPass,
    shaderMaskFromBinary: bv32,
    rbPlusEnable: bool,
    chipRbPlus: bool,
    tossPointAfterPs: bool,
    isInternal: bool)

  /**
   * The colour registers after the non-shader setup, step by step, starting
   * from the current CB_COLOR_CONTROL, CB_TARGET_MASK (which the targets'
   * write masks are or-ed into) and SX registers; CB_SHADER_MASK is the
   * binary's.
   */
  function ColorSetupFrom(ci: ColorInputs, start: ColorRegs, sx0: SxRegs): (ColorRegs, SxRegs)
  {
    var r0 := ColorRegs(start.cbColorControl, ci.shaderMaskFromBinary, start.cbTargetMask | TargetMask(ci.targets));
    var r1 := ColorModeStep(r0, ci.pass, ci.logicOp);
    var cc2 := DualSourceGuard(r1.cbColorControl, r1.cbShaderMask, ci.dualSourceBlendEnable);
    var (cc3, sx) := RbPlusStep(cc2, sx0, ci.rbPlusEnable, ci.chipRbPlus, ci.dualSourceBlendEnable, ci.targets);
    var target := if !ci.isInternal && ci.tossPointAfterPs then 0 else r1.cbTargetMask;
    (ColorRegs(cc3, r1.cbShaderMask, target), sx)
  }

  /** The colour registers a new pipeline ends up with: the setup from zeroed registers. */
  function ColorSetup(ci: ColorInputs): (ColorRegs, SxRegs)
  {
    ColorSetupFrom(ci, ColorRegs(0, 0, 0), SxRegs(0, 0, 0))
  }

  /**
   * For an ordinary pipeline without dual-source blending, MODE ends up
   * CB_DISABLE exactly when the binary's shader mask or every target's
   * write mask (low four bits) is empty.  The after-PS toss point then only
   * clears CB_TARGET_MASK; it does not change MODE.
   */
  lemma OrdinaryPipelineColorMode(ci: ColorInputs)
    requires !ci.pass.IsDecompress() && !ci.pass.resolveFixedFunc && !ci.dualSourceBlendEnable
    ensures var (c, _) := ColorSetup(ci);
            && (CbMode(c.cbColorControl) == CB_DISABLE <==>
                  ci.shaderMaskFromBinary == 0 || TargetMask(ci.targets) == 0)
            && (!ci.isInternal && ci.tossPointAfterPs ==> c.cbTargetMask == 0)
            && (ci.isInternal || !ci.tossPointAfterPs ==> c.cbTargetMask == TargetMask(ci.targets))
  {
    var r0 := ColorRegs(0, ci.shaderMaskFromBinary, 0 | TargetMask(ci.targets));
    OrdinaryColorMode(r0, ci.pass, ci.logicOp);
    var r1 := ColorModeStep(r0, ci.pass, ci.logicOp);
    RbPlusStepKeepsMode(r1.cbColorControl, SxRegs(0, 0, 0), ci.rbPlusEnable, ci.chipRbPlus, false, ci.targets);
  }

  /** A written target makes the target mask non-zero: its slot holds the target's low four write-mask bits. */
  lemma WrittenTargetMakesMaskNonZero(ts: Targets, k: bv32)
    requires k < 8 && ts[k].channelWriteMask & 0xF != 0
    ensures TargetMask(ts) != 0
  {
    TargetMaskNibbles(ts, 8, k);
    TargetMaskIsWord(ts);
    MaskBitsOfByteLow4(ts[k].channelWriteMask);
  }

  lemma MaskBitsOfByteLow4(b: bv8)
    ensures b & 0xF == 0 <==> (b as bv32) & 0xF == 0
  {
  }

  // ---- RB+ override for internal blits ----

  /**
   * The SX registers an internal (RPM) blit uses for slot `slot` when it
   * writes format `format`: when the pipeline was built for another format
   * in that slot and uses RB+, registers set up from scratch for that slot
   * alone, with the format's component mask as write mask; otherwise the
   * caller's registers.
   */
  function OverrideRbPlusRegistersForRpm(targetFormat: ChNumFormat, format: ChNumFormat, componentMask: bv8,
                                         cbColorControl: bv32, slot: bv32, current: SxRegs): (r: SxRegs)
    requires slot < 8
    ensures targetFormat == format || DisableDualQuad(cbColorControl) != 0 ==> r == current
    ensures targetFormat != format && DisableDualQuad(cbColorControl) == 0 ==>
              Nibble(r.downconvert, slot) == SxDownConvertFormat(format).Code() &&
              Nibble(r.control, slot) == SxBlendOptControl(componentMask as bv32)
  {
    if targetFormat != format && DisableDualQuad(cbColorControl) == 0 then
      SetupRbPlusRegistersForSlot(SxRegs(0, 0, 0), slot, componentMask, format)
    else current
  }

  /**
   * An override describes the blit's format in its slot and clears every
   * other slot of the three registers; without one the registers are the
   * caller's.
   */
  lemma RpmOverrideClearsOtherSlots(targetFormat: ChNumFormat, format: ChNumFormat, componentMask: bv8,
                                    cbColorControl: bv32, slot: bv32, current: SxRegs, k: bv32)
    requires slot < 8 && k < 8
    ensures var r := OverrideRbPlusRegistersForRpm(targetFormat, format, componentMask, cbColorControl, slot, current);
            && (targetFormat == format || DisableDualQuad(cbColorControl) != 0 ==> r == current)
            && (targetFormat != format && DisableDualQuad(cbColorControl) == 0 ==>
                  Nibble(r.downconvert, slot) == SxDownConvertFormat(format).Code() &&
                  (k != slot ==> Nibble(r.downconvert, k) == 0 && Nibble(r.epsilon, k) == 0 &&
                                 Nibble(r.control, k) == 0))
  {
    if targetFormat != format && DisableDualQuad(cbColorControl) == 0 && k != slot {
      var z := SxRegs(0, 0, 0);
      assert OverrideRbPlusRegistersForRpm(targetFormat, format, componentMask, cbColorControl, slot, current) ==
             SetupRbPlusRegistersForSlot(z, slot, componentMask, format);
      RbPlusSlotDownconvert(z, slot, componentMask, format, k);
      RbPlusSlotEpsilon(z, slot, componentMask, format, k);
      RbPlusSlotControl(z, slot, componentMask, format, k);
    }
  }

  /**
   * Two different formats the RB+ table does not name still count as
   * different: on an RB+ pipeline the blit's override is taken, and it
   * leaves every slot's downconvert and epsilon group unconverted (zero).
   */
  lemma RpmOverrideOfUnlistedFormat(targetId: nat, formatId: nat, componentMask: bv8, cbColorControl: bv32,
                                    slot: bv32, current: SxRegs, k: bv32)
    requires slot < 8 && k < 8
    requires targetId != formatId && DisableDualQuad(cbColorControl) == 0
    ensures var r := OverrideRbPlusRegistersForRpm(OtherFormat(targetId), OtherFormat(formatId), componentMask,
                                                   cbColorControl, slot, current);
            Nibble(r.downconvert, k) == 0 && Nibble(r.epsilon, k) == 0
  {
    var z := SxRegs(0, 0, 0);
    RbPlusSlotDownconvert(z, slot, componentMask, OtherFormat(formatId), k);
    RbPlusSlotEpsilon(z, slot, componentMask, OtherFormat(formatId), k);
  }
}
