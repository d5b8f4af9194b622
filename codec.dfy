/** The bit-field codec of GP22.cpp, stated on the bytes of the register file.
    Each getter reads a setting out of one byte; each `With` function gives,
    with explicit masks, the byte that the corresponding setter stores back,
    guards and all. The lemmas state what a setter promises a later getter.
    Module Pieces and the class in module Driver perform the same updates step
    by step with the bit macros and are proved to store exactly these bytes. */
module Codec {
  import opened Bits
  import opened Registers

  // ---------------------------------------------------------------------
  // Register 0, byte 2, bit 3 (MESSB2): measurement mode

  /** getMeasurementMode: the raw MESSB2 bit, 0 for mode 1 and 1 for mode 2. */
  function MeasurementMode(b: bv8): (m: bv8)
    ensures m == 0 || m == 1
    ensures m == 1 <==> Bit(b, 3)
  {
    if b & 0x08 > 0 then 1 else 0
  }

  /** The byte setMeasurementMode stores in register 0 byte 2: mode 1 clears
      MESSB2, mode 2 sets it, any other value leaves the byte as it was. */
  function WithMeasurementMode(b: bv8, mode: bv8): bv8
  {
    if mode == 1 then b & 0xF7
    else if mode == 2 then b | 0x08
    else b
  }

  /** After setMeasurementMode(1) the getter reads 0, after mode 2 it reads 1:
      never the mode number that was set. */
  lemma MeasurementModeWrite(b: bv8, mode: bv8)
    requires mode == 1 || mode == 2
    ensures MeasurementMode(WithMeasurementMode(b, mode)) == mode - 1
  {
  }

  /** setMeasurementMode touches MESSB2 only, and nothing for other modes. */
  lemma MeasurementModeKeeps(b: bv8, mode: bv8)
    ensures WithMeasurementMode(b, mode) & 0xF7 == b & 0xF7
    ensures mode != 1 && mode != 2 ==> WithMeasurementMode(b, mode) == b
  {
  }

  // ---------------------------------------------------------------------
  // Register 0, byte 1, bits 4-5: clock pre-divider

  /** getClkPreDiv: raw 0, 1, 2, 3 decode to 1, 2, 4, 4. */
  function ClkPreDiv(b: bv8): (d: bv8)
    ensures d == 1 || d == 2 || d == 4
    ensures d == 1 <==> b & 0x30 == 0
  {
    var divRaw := (b & 0x30) >> 4;
    if divRaw == 0 then 1
    else if divRaw == 1 then 2
    else 4
  }

  /** The byte setClkPreDiv stores in register 0 byte 1: for 1, 2 or 4 the
      divider bits encode it, any other value leaves the byte as it was. */
  function WithClkPreDiv(b: bv8, div: bv8): bv8
  {
    if div == 1 then b & 0xCF
    else if div == 2 then (b & 0xCF) | 0x10
    else if div == 4 then (b & 0xCF) | 0x20
    else b
  }

  /** The divider reads back as set when it is 1, 2 or 4, and as before otherwise. */
  lemma ClkPreDivRoundTrip(b: bv8, div: bv8)
    ensures ClkPreDiv(WithClkPreDiv(b, div)) == if div == 1 || div == 2 || div == 4 then div else ClkPreDiv(b)
  {
  }

  /** setClkPreDiv touches the divider bits only, and nothing for an invalid divider. */
  lemma ClkPreDivKeeps(b: bv8, div: bv8)
    ensures WithClkPreDiv(b, div) & 0xCF == b & 0xCF
    ensures !(div == 1 || div == 2 || div == 4) ==> WithClkPreDiv(b, div) == b
  {
  }

  /** The constants of updateConversionFactor: one unit of the Q16.16
      result, the period of the 4 MHz reference clock in seconds, and
      seconds per microsecond. */
  const QConv: real := 1.0 / 65536.0
  const TRef: real := 1.0 / 4000000.0
  const TimeBase: real := 1000000.0

  /** The conversion factor from a raw Q16.16 result to microseconds computed
      by updateConversionFactor (2^-16 times the 4 MHz reference period in
      microseconds times the divider), as an exact real. */
  function ConversionFactor(div: bv8): (f: real)
    ensures f * 262144.0 == (div as int) as real
  {
    TRef * QConv * TimeBase * ((div as int) as real)
  }

  // ---------------------------------------------------------------------
  // Register 1, byte 1: expected hits, channel 1 in bits 0-2, channel 2 in bits 3-5

  /** getExpectedHits. */
  function ExpectedHits(b: bv8, channel: Channel): (h: bv8)
    ensures h <= 7
  {
    match channel
    case CH1 => b & 0x07
    case CH2 => (b & 0x38) >> 3
  }

  /** The byte setExpectedHits stores in register 1 byte 1: for 0..4 hits the
      channel's field holds the count, for more hits the byte is kept. */
  function WithExpectedHits(b: bv8, channel: Channel, hits: bv8): bv8
  {
    if hits > 4 then b
    else match channel
      case CH1 => (b & 0xF8) | hits
      case CH2 => (b & 0xC7) | (hits << 3)
  }

  /** The channel's count reads back as set when it is at most 4, and as before otherwise. */
  lemma ExpectedHitsRoundTrip(b: bv8, channel: Channel, hits: bv8)
    ensures ExpectedHits(WithExpectedHits(b, channel, hits), channel) ==
      if hits <= 4 then hits else ExpectedHits(b, channel)
  {
  }

  /** setExpectedHits leaves the other channel's count and bits 6-7 alone. */
  lemma ExpectedHitsKeeps(b: bv8, channel: Channel, hits: bv8)
    ensures ExpectedHits(WithExpectedHits(b, channel, hits), channel.Other()) == ExpectedHits(b, channel.Other())
    ensures WithExpectedHits(b, channel, hits) & 0xC0 == b & 0xC0
  {
  }

  // ---------------------------------------------------------------------
  // Register 1, byte 0: ALU hit operators, HIT1 in the low nibble, HIT2 in the high nibble

  /** getHit1Op. */
  function Hit1Op(b: bv8): (op: bv8)
    ensures op < 16
  {
    b & 0x0F
  }

  /** getHit2Op. */
  function Hit2Op(b: bv8): (op: bv8)
    ensures op < 16
  {
    (b & 0xF0) >> 4
  }

  /** The byte defineHit1Op stores: the low nibble cleared and op added with
      uint8 wrap-around. */
  function WithHit1Op(b: bv8, op: bv8): bv8
  {
    (b & 0xF0) + op
  }

  /** The byte defineHit2Op stores: the high nibble cleared and op << 4 added. */
  function WithHit2Op(b: bv8, op: bv8): bv8
  {
    (b & 0x0F) + (op << 4)
  }

  /** defineHit1Op: the HIT1 operator reads back as op mod 16, and an op of 16
      or more carries its high nibble into the HIT2 operator. */
  lemma Hit1OpWrite(b: bv8, op: bv8)
    ensures Hit1Op(WithHit1Op(b, op)) == op % 16
    ensures Hit2Op(WithHit1Op(b, op)) == (Hit2Op(b) + op / 16) % 16
  {
  }

  /** defineHit2Op: the HIT2 operator reads back as op mod 16 and the HIT1
      operator is kept. */
  lemma Hit2OpWrite(b: bv8, op: bv8)
    ensures Hit2Op(WithHit2Op(b, op)) == op % 16
    ensures Hit1Op(WithHit2Op(b, op)) == Hit1Op(b)
  {
  }

  /** updateALUInstruction's two operator writes leave both operators as
      given, mod 16, whatever the carry of the first write. */
  lemma AluInstructionWrite(b: bv8, instruction: ALUInstruction)
    ensures Hit1Op(WithHit2Op(WithHit1Op(b, instruction.hit1Op), instruction.hit2Op)) == instruction.hit1Op % 16
    ensures Hit2Op(WithHit2Op(WithHit1Op(b, instruction.hit1Op), instruction.hit2Op)) == instruction.hit2Op % 16
  {
    Hit1OpWrite(b, instruction.hit1Op);
    Hit2OpWrite(WithHit1Op(b, instruction.hit1Op), instruction.hit2Op);
  }

  // ---------------------------------------------------------------------
  // Edge sensitivity: register 0 byte 2 bits 0-2 (start, stop1, stop2 falling),
  // register 2 byte 0 bits 3-4 (stop1, stop2 on both edges)

  /** The byte setEdgeSensitivity stores in register 0 byte 2. A start of 0
      or 1 writes bit 0; a stop of 0 or 1 writes its bit (1 for stop1, 2 for
      stop2), a stop of 2 clears it; every other argument keeps its bit. */
  function WithEdgeReg0(b: bv8, start: bv8, stop1: bv8, stop2: bv8): bv8
  {
    WithPolarity(WithPolarity(WithPolarity(b, 0x01, start, false), 0x02, stop1, true), 0x04, stop2, true)
  }

  /** One polarity bit (the bits of `mask`): cleared for edge 0, and for edge
      2 where both edges are allowed; set for edge 1; kept otherwise. */
  function WithPolarity(b: bv8, mask: bv8, edge: bv8, bothAllowed: bool): bv8
  {
    if edge == 0 || (bothAllowed && edge == 2) then b & !mask
    else if edge == 1 then b | mask
    else b
  }

  /** The byte setEdgeSensitivity stores in register 2 byte 0: a stop of 2
      sets its both-edges bit (3 for stop1, 4 for stop2); nothing clears them. */
  function WithEdgeReg2(b: bv8, stop1: bv8, stop2: bv8): bv8
  {
    var b1 := if stop1 == 2 then b | 0x08 else b;
    if stop2 == 2 then b1 | 0x10 else b1
  }

  /** The start polarity bit: written for 0 or 1, kept otherwise. */
  lemma EdgeStartBit(b: bv8, start: bv8, stop1: bv8, stop2: bv8)
    ensures Bit(WithEdgeReg0(b, start, stop1, stop2), 0) == if start <= 1 then start == 1 else Bit(b, 0)
  {
  }

  /** The stop1 polarity bit: written for 0 or 1, cleared for both edges, kept otherwise. */
  lemma EdgeStop1Bit(b: bv8, start: bv8, stop1: bv8, stop2: bv8)
    ensures Bit(WithEdgeReg0(b, start, stop1, stop2), 1) == if stop1 <= 2 then stop1 == 1 else Bit(b, 1)
  {
  }

  /** The stop2 polarity bit: written for 0 or 1, cleared for both edges, kept otherwise. */
  lemma EdgeStop2Bit(b: bv8, start: bv8, stop1: bv8, stop2: bv8)
    ensures Bit(WithEdgeReg0(b, start, stop1, stop2), 2) == if stop2 <= 2 then stop2 == 1 else Bit(b, 2)
  {
  }

  /** Bits 3-7 of register 0 byte 2 are left alone. */
  lemma EdgeReg0Keeps(b: bv8, start: bv8, stop1: bv8, stop2: bv8)
    ensures WithEdgeReg0(b, start, stop1, stop2) & 0xF8 == b & 0xF8
  {
  }

  /** The both-edges bits are set by a stop of 2 and otherwise kept, and no
      other bit of register 2 byte 0 changes. */
  lemma EdgeReg2Bits(b: bv8, stop1: bv8, stop2: bv8)
    ensures Bit(WithEdgeReg2(b, stop1, stop2), 3) == (Bit(b, 3) || stop1 == 2)
    ensures Bit(WithEdgeReg2(b, stop1, stop2), 4) == (Bit(b, 4) || stop2 == 2)
    ensures WithEdgeReg2(b, stop1, stop2) & 0xE7 == b & 0xE7
  {
  }

  // ---------------------------------------------------------------------
  // Register 6, byte 2: resolution, bit 4 double, bit 5 quad, neither single

  /** isDoubleRes. */
  predicate DoubleRes(b: bv8) { b & 0x10 > 0 }

  /** isQuadRes. */
  predicate QuadRes(b: bv8) { b & 0x20 > 0 }

  /** isSingleRes: neither of the other two. */
  predicate SingleRes(b: bv8) { !DoubleRes(b) && !QuadRes(b) }

  /** The double and quad bits are never both set. */
  predicate ResolutionExclusive(b: bv8) { !(DoubleRes(b) && QuadRes(b)) }

  /** The byte setSingleRes stores: both resolution bits clear. */
  function WithSingleRes(b: bv8): (r: bv8)
    ensures SingleRes(r) && ResolutionExclusive(r)
    ensures r & 0xCF == b & 0xCF
  {
    b & 0xCF
  }

  /** The byte setDoubleRes stores: double set, quad clear. */
  function WithDoubleRes(b: bv8): (r: bv8)
    ensures DoubleRes(r) && !QuadRes(r) && !SingleRes(r)
    ensures r & 0xCF == b & 0xCF
  {
    (b & 0xCF) | 0x10
  }

  /** The byte the guarded branch of setQuadRes would store: quad set, double clear. */
  function WithQuadRes(b: bv8): (r: bv8)
    ensures QuadRes(r) && !DoubleRes(r) && !SingleRes(r)
    ensures r & 0xCF == b & 0xCF
  {
    (b & 0xCF) | 0x20
  }

  /** When the double and quad bits are not both set, exactly one of
      isSingleRes, isDoubleRes and isQuadRes holds. */
  lemma ExactlyOneResolution(b: bv8)
    requires ResolutionExclusive(b)
    ensures (if SingleRes(b) then 1 else 0) + (if DoubleRes(b) then 1 else 0)
          + (if QuadRes(b) then 1 else 0) == 1
  {
  }

  // ---------------------------------------------------------------------
  // Register 3, byte 0: bit 7 auto-calc, bit 6 first-wave mode

  /** isAutoCalcOn. */
  predicate AutoCalcOn(b: bv8) { b & 0x80 > 0 }

  /** The byte setAutoCalcOn stores. */
  function WithAutoCalc(b: bv8, on: bool): (r: bv8)
    ensures AutoCalcOn(r) == on
    ensures r & 0x7F == b & 0x7F
  {
    if on then b | 0x80 else b & 0x7F
  }

  /** isFirstWaveMode. */
  predicate FirstWaveMode(b: bv8) { b & 0x40 > 0 }

  /** The byte setFirstWaveMode stores, whatever its argument: bit 6 set. */
  function WithFirstWaveMode(b: bv8): (r: bv8)
    ensures FirstWaveMode(r)
    ensures r & 0xBF == b & 0xBF
  {
    b | 0x40
  }

  // ---------------------------------------------------------------------
  // Register 3 as a 32-bit word: DELREL1 bits 8-13, DELREL2 bits 14-19, DELREL3 bits 20-25

  function DelRel1(w: bv32): bv32 { (w >> 8) & 0x3F }
  function DelRel2(w: bv32): bv32 { (w >> 14) & 0x3F }
  function DelRel3(w: bv32): bv32 { (w >> 20) & 0x3F }

  /** setFirstWaveDelays' DELREL3 step on its local FourByte: the upper half
      word with bits 4-9 cleared (mask 0x03F0), plus stop3 << 4 with 16-bit
      wrap-around. */
  function WithDelRel3(w: bv32, stop3: bv8): bv32
  {
    var topBytes := (w >> 16) as bv16;
    var top := (topBytes ^ (topBytes & 0x03F0)) + ((stop3 as bv16) << 4);
    ((top as bv32) << 16) | (w & 0xFFFF)
  }

  /** The DELREL2 step: bytes 1-2 read as a half word with bits 6-11 cleared
      (mask 0x0FC0), plus stop2 << 6 with 16-bit wrap-around. */
  function WithDelRel2(w: bv32, stop2: bv8): bv32
  {
    var middleBytes := ((w >> 8) & 0xFFFF) as bv16;
    var middle := (middleBytes ^ (middleBytes & 0x0FC0)) + ((stop2 as bv16) << 6);
    (w & 0xFF00_00FF) | ((middle as bv32) << 8)
  }

  /** The DELREL1 step: byte 1 with bits 0-5 cleared, plus stop1 with 8-bit
      wrap-around. */
  function WithDelRel1(w: bv32, stop1: bv8): bv32
  {
    var byte1 := ((w >> 8) & 0xFF) as bv8;
    var byte1' := (byte1 ^ (byte1 & 0x3F)) + stop1;
    (w & 0xFFFF_00FF) | ((byte1' as bv32) << 8)
  }

  /** The register 3 word that setFirstWaveDelays assembles: DELREL3, then
      DELREL2, then DELREL1. */
  function DelayPiece(w: bv32, stop1: bv8, stop2: bv8, stop3: bv8): bv32
  {
    WithDelRel1(WithDelRel2(WithDelRel3(w, stop3), stop2), stop1)
  }

  /** A DELREL3 of at most 63 is stored as given and nothing else changes. */
  lemma DelRel3Write(w: bv32, stop3: bv8)
    requires stop3 <= 63
    ensures DelRel3(WithDelRel3(w, stop3)) == stop3 as bv32
    ensures WithDelRel3(w, stop3) & 0xFC0F_FFFF == w & 0xFC0F_FFFF
  {
  }

  /** A DELREL2 of at most 63 is stored as given and nothing else changes. */
  lemma DelRel2Write(w: bv32, stop2: bv8)
    requires stop2 <= 63
    ensures DelRel2(WithDelRel2(w, stop2)) == stop2 as bv32
    ensures WithDelRel2(w, stop2) & 0xFFF0_3FFF == w & 0xFFF0_3FFF
  {
  }

  /** A DELREL1 of at most 63 is stored as given and nothing else changes. */
  lemma DelRel1Write(w: bv32, stop1: bv8)
    requires stop1 <= 63
    ensures DelRel1(WithDelRel1(w, stop1)) == stop1 as bv32
    ensures WithDelRel1(w, stop1) & 0xFFFF_C0FF == w & 0xFFFF_C0FF
  {
  }

  /** For stops of at most 63 the three fields hold them and every bit
      outside the fields is kept: the later steps do not disturb the earlier
      fields. */
  lemma DelayPieceFields(w: bv32, stop1: bv8, stop2: bv8, stop3: bv8)
    requires stop1 <= 63 && stop2 <= 63 && stop3 <= 63
    ensures DelRel1(DelayPiece(w, stop1, stop2, stop3)) == stop1 as bv32
    ensures DelRel2(DelayPiece(w, stop1, stop2, stop3)) == stop2 as bv32
    ensures DelRel3(DelayPiece(w, stop1, stop2, stop3)) == stop3 as bv32
    ensures DelayPiece(w, stop1, stop2, stop3) & 0xFC00_00FF == w & 0xFC00_00FF
  {
    var w3 := WithDelRel3(w, stop3);
    var w2 := WithDelRel2(w3, stop2);
    DelRel3Write(w, stop3);
    DelRel2Write(w3, stop2);
    DelRel1Write(w2, stop1);
  }

  // ---------------------------------------------------------------------
  // Register 4, byte 1, bit 0 (DIS_PW, active low): pulse-width measurement

  /** isPulseWidthMeasOn: the disable bit is clear. */
  predicate PulseWidthMeasOn(b: bv8) { b & 0x01 == 0 }

  /** The byte setPulseWidthMeasOn stores. */
  function WithPulseWidthMeas(b: bv8, on: bool): (r: bv8)
    ensures PulseWidthMeasOn(r) == on
    ensures r & 0xFE == b & 0xFE
  {
    if on then b & 0xFE else b | 0x01
  }

  // ---------------------------------------------------------------------
  // Register 4, byte 2: bit 7 first-wave edge, bits 0-4 offset, bit 5 -20, bit 6 +20

  /** isFirstWaveRisingEdge: true when bit 7 is set, which is the falling edge. */
  predicate FirstWaveRisingEdge(b: bv8) { b & 0x80 > 0 }

  /** The byte setFirstWaveRisingEdge stores: rising (on) clears bit 7,
      falling sets it, so the getter then answers the opposite of `on`. */
  function WithFirstWaveRisingEdge(b: bv8, on: bool): (r: bv8)
    ensures FirstWaveRisingEdge(r) == !on
    ensures r & 0x7F == b & 0x7F
  {
    if on then b & 0x7F else b | 0x80
  }

  /** The value setFirstWaveOffset encodes in the 5-bit field after choosing a
      range: above 15 it takes 20 off, below -16 it adds 20. */
  function OffsetCore(offset: int8): int
  {
    if offset > 15 then offset - 20
    else if offset < -16 then offset + 20
    else offset
  }

  /** The 5-bit two's complement reading of the low five bits. */
  function FiveBitSigned(b: bv8): int
  {
    var t := (b & 0x1F) as int;
    if t > 15 then t - 32 else t
  }

  /** What the range bits add: bit 5 (OFFSRNG1) -20, taking precedence over
      bit 6 (OFFSRNG2) +20. */
  function RangeExtension(b: bv8): int
  {
    if b & 0x20 > 0 then -20
    else if b & 0x40 > 0 then 20
    else 0
  }

  /** getFirstWaveOffset. Under C integer promotion `-1 * ((~t) + 1)` equals t,
      so a field of 16..31 is returned unchanged rather than as a negative. */
  function FirstWaveOffset(b: bv8): (offset: int8)
    ensures offset == (b & 0x1F) as int + RangeExtension(b)
  {
    var twosComp := b & 0x1F;
    var core := if twosComp > 15 then -1 * (IntNot(twosComp) + 1) else twosComp as int;
    core + RangeExtension(b)
  }

  /** The amount setFirstWaveOffset adds into the cleared 5-bit field: a
      positive core as it is, a negative core as 31 + (core + 1), anything
      else nothing. */
  function OffsetField(core: int): (f: bv8)
    ensures f < 32
  {
    if 0 < core <= 15 then core as bv8
    else if -16 <= core < 0 then (31 + (core + 1)) as bv8
    else 0
  }

  /** The field added, as a number: the core itself when positive, 32 plus
      the core when negative, otherwise 0. */
  lemma OffsetFieldValue(core: int)
    ensures OffsetField(core) as int == if 0 < core <= 15 then core else if -16 <= core < 0 then 32 + core else 0
  {
    if 0 < core <= 15 {
      assert (core as bv8) as int == core;
    } else if -16 <= core < 0 {
      assert ((31 + (core + 1)) as bv8) as int == 32 + core;
    }
  }

  /** The field added is the 5-bit two's complement of an in-range core. */
  lemma OffsetFieldSigned(core: int)
    ensures FiveBitSigned(OffsetField(core)) == if -16 <= core <= 15 then core else 0
  {
    OffsetFieldValue(core);
    assert OffsetField(core) & 0x1F == OffsetField(core);
  }

  /** The range bits setFirstWaveOffset leaves: bit 6 alone above 15, bit 5
      alone below -16, neither otherwise. */
  function OffsetRange(b: bv8, offset: int8): bv8
  {
    if offset > 15 then (b | 0x40) & 0xDF
    else if offset < -16 then (b | 0x20) & 0xBF
    else b & 0x9F
  }

  /** The byte setFirstWaveOffset stores: the range bits chosen, the low five
      bits cleared and the field of the core value added in. */
  function WithFirstWaveOffset(b: bv8, offset: int8): bv8
  {
    var ranged := OffsetRange(b, offset);
    (ranged ^ (ranged & 0x1F)) + OffsetField(OffsetCore(offset))
  }

  /** The parts of the stored byte: bits 5-7 from the range choice, bits 0-4
      the field. */
  lemma OffsetSplit(b: bv8, offset: int8)
    ensures WithFirstWaveOffset(b, offset) & 0x1F == OffsetField(OffsetCore(offset))
    ensures WithFirstWaveOffset(b, offset) & 0xE0 == OffsetRange(b, offset) & 0xE0
  {
  }

  /** At most one range bit is set, bit 6 exactly above 15, bit 5 exactly
      below -16, and bit 7 is kept. */
  lemma OffsetRangeBits(b: bv8, offset: int8)
    ensures Bit(WithFirstWaveOffset(b, offset), 6) == (offset > 15)
    ensures Bit(WithFirstWaveOffset(b, offset), 5) == (offset < -16)
    ensures WithFirstWaveOffset(b, offset) & 0x80 == b & 0x80
  {
    OffsetSplit(b, offset);
  }

  /** What the range bits of the stored byte add: +20 above 15, -20 below -16. */
  lemma OffsetRangeExtension(b: bv8, offset: int8)
    ensures RangeExtension(WithFirstWaveOffset(b, offset)) ==
      if offset > 15 then 20 else if offset < -16 then -20 else 0
  {
    OffsetSplit(b, offset);
  }

  /** On -36..35 the stored byte is a faithful encoding: the field read as a
      5-bit signed number plus the range bits gives back the offset. */
  lemma FirstWaveOffsetEncoding(b: bv8, offset: int8)
    requires -36 <= offset <= 35
    ensures FiveBitSigned(WithFirstWaveOffset(b, offset)) + RangeExtension(WithFirstWaveOffset(b, offset)) == offset
  {
    var r := WithFirstWaveOffset(b, offset);
    OffsetSplit(b, offset);
    OffsetRangeExtension(b, offset);
    OffsetFieldSigned(OffsetCore(offset));
    assert FiveBitSigned(r) == FiveBitSigned(OffsetField(OffsetCore(offset)));
  }

  /** Reading back an offset: exact for a non-negative core; a negative core
      comes back 32 too high; outside -36..35 only the range bit survives. */
  lemma FirstWaveOffsetReadBack(b: bv8, offset: int8)
    ensures FirstWaveOffset(WithFirstWaveOffset(b, offset)) ==
      if offset > 35 then 20
      else if offset < -36 then -20
      else if OffsetCore(offset) < 0 then offset + 32
      else offset
  {
    var r := WithFirstWaveOffset(b, offset);
    OffsetSplit(b, offset);
    OffsetRangeExtension(b, offset);
    OffsetFieldValue(OffsetCore(offset));
    assert (r & 0x1F) as int == OffsetField(OffsetCore(offset)) as int;
  }

  /** The round trip through setFirstWaveOffset and getFirstWaveOffset holds
      exactly for -20..-17, 0..15 and 20..35. */
  lemma FirstWaveOffsetRoundTrip(b: bv8, offset: int8)
    ensures FirstWaveOffset(WithFirstWaveOffset(b, offset)) == offset <==>
      (-20 <= offset <= -17 || 0 <= offset <= 15 || 20 <= offset <= 35)
  {
    FirstWaveOffsetReadBack(b, offset);
  }

  // ---------------------------------------------------------------------
  // The defaults of GP22.h read through the getters

  /** Register 0 and 1 defaults: divider 1, MESSB2 set (mode 2), CH1 expects 2
      hits and CH2 none, HIT1 operator 1 and HIT2 operator 2. */
  lemma DefaultReg0Reg1()
    ensures ClkPreDiv(DefaultConfig[0][1]) == 1
    ensures MeasurementMode(DefaultConfig[0][2]) == 1
    ensures ExpectedHits(DefaultConfig[1][1], CH1) == 2
    ensures ExpectedHits(DefaultConfig[1][1], CH2) == 0
    ensures Hit1Op(DefaultConfig[1][0]) == 1 && Hit2Op(DefaultConfig[1][0]) == 2
  {
  }

  /** Register 3 and 4 defaults: auto-calc off, first-wave mode off, pulse
      width measured, offset 0. */
  lemma DefaultReg3Reg4()
    ensures !AutoCalcOn(DefaultConfig[3][0]) && !FirstWaveMode(DefaultConfig[3][0])
    ensures PulseWidthMeasOn(DefaultConfig[4][1])
    ensures FirstWaveOffset(DefaultConfig[4][2]) == 0
  {
  }

  /** Register 6 default: quad resolution on, double off, so the resolution
      bits start out exclusive. */
  lemma DefaultResolution()
    ensures QuadRes(DefaultConfig[6][2]) && !DoubleRes(DefaultConfig[6][2])
    ensures ResolutionExclusive(DefaultConfig[6][2])
  {
  }
}
