# GP22 shadow configuration registers, modelled in Dafny

This project models the driver object of the TDC-GP22 time-to-digital
converter library (GP22.cpp, GP22.h). The driver keeps a shadow copy of the
chip's seven 32-bit configuration registers as a 7 x 4 byte array. Most
setters copy one byte of that array, change some bits with the Arduino bit
macros or with `+=`, and store the byte back; the matching getter masks and
shifts the same byte. setEdgeSensitivity works on two bytes, in registers 0
and 2. setFirstWaveDelays and setQuadRes store nothing (see below). Around this register file the model also covers:

- the decoder of the 16-bit status word;
- the packing of the registers into 32-bit words (getConfig);
- the opcode and selection logic of readResult, updateConfig, testComms and
  updateALUInstruction.

The project has six modules:

- `Bits`: the C types int8_t and int32_t, and bitRead/bitSet/bitClear/bitWrite
  on bytes. It also has the clearing loop of the ALU operator setters.
- `Registers`: the declarations of GP22.h. These are the channels, the ALU
  instruction record, the default register table, and the byte order in which
  replies are assembled into 16- and 32-bit words.
- `Status`: the status-word decoders.
- `Codec`: one getter per setting and one `With` function per setter. A
  `With` function gives, by explicit masks, the exact byte the setter stores.
  The lemmas beside them state what a later getter reads back, which bits are
  kept, and on which domain a round trip holds.
- `Pieces`: the setters that branch on their arguments, written step by step
  with the bit macros as the source does. Each is proved to produce the byte
  of its `With` function.
- `Driver`: class `GP22`. Its fields are the register file (`array2<bv8>`),
  the last status word, the conversion factor, and a ghost trace of the bus
  transfers issued. The setters are methods that update the array in place.
  Each one's postcondition states the bytes it stores, that no other byte
  changed, what the getters now return, and that the class invariant
  `Valid()` is kept. The exceptions are SetFirstWaveDelays and SetQuadRes,
  whose postconditions state that the register file is unchanged.
  `Valid()` says three things: the file has its 7 x 4 shape, the double- and
  quad-resolution bits are never both set, and the factor matches the
  divider.

The model follows the code as written, including these behaviours:

- getMeasurementMode returns the raw MESSB2 bit (0 or 1). So the `== 2` guard
  of setQuadRes never holds, and setQuadRes never changes anything.
- setFirstWaveMode sets bit 6 whatever its argument is.
- setFirstWaveRisingEdge(true) clears bit 7, and isFirstWaveRisingEdge
  reports bit 7. The getter therefore answers the opposite of the last value
  set.
- setFirstWaveDelays assembles the DELREL fields in a local copy and never
  stores it. The register file is unchanged.
- In getFirstWaveOffset, `-1 * ((~t) + 1)` evaluates to `t` under C integer
  promotion. A negative 5-bit field therefore reads back 32 too high. The
  set/get round trip holds exactly for offsets -20..-17, 0..15 and 20..35.
  The stored byte is still a correct encoding on the documented range
  -36..35: its field read as a 5-bit signed number, plus the range bits,
  gives back the offset.
- setExpectedHits accepts 0..4 hits. The comment in GP22.h:61 says 2-4; the
  model follows the code.
- The uint8_t `+=` of the ALU operator setters wraps modulo 256. An operator
  of 16 or more given to defineHit1Op carries into HIT2. defineHit2Op drops
  the bits of `op << 4` above bit 7, so HIT1 is kept.

Transport is abstracted. Bytes the device sends back (the status word, the
result register, the testComms echo) are parameters of the methods. Every
transfer the driver issues is appended to the ghost `trace` as an opcode and
its payload.

## Model

| member | source | states |
|---|---|---|
| Bits.Bit | GP22.cpp:165 | bit n of the byte is one: the `(byte & mask) > 0` test of the single-bit getters, with the mask of bit n |
| Bits.BitSet | GP22.cpp:159 | bitSet(b, n): the byte with bit n set, every other bit kept |
| Bits.BitClear | GP22.cpp:150 | bitClear(b, n): the byte with bit n cleared, every other bit kept |
| Bits.BitWrite | GP22.cpp:298 | bitWrite(b, n, v): bitSet when v holds, bitClear otherwise |
| Bits.IntNot | GP22.cpp:516-522 | C's `~` on the uint8_t twosComp, promoted to int: the bitwise complement of the promoted 32-bit word, read as signed, which is minus the byte minus one |
| Bits.BitClearBit | GP22.cpp:262-263 | after bitWrite(b, n, 0), bit n is zero and every other bit is what it was |
| Bits.ClearBits | GP22.cpp:262-263 | the loop `bitWrite(piece, i, 0)` for i in from..to-1 clears exactly those bits; every bit outside the range keeps its value |
| Bits.ClearedLowNibble | GP22.cpp:261-263 | clearing bits 0-3 leaves exactly the high nibble of the byte |
| Bits.ClearedHighNibble | GP22.cpp:274-276 | clearing bits 4-7 leaves exactly the low nibble of the byte |
| Registers.Channel.Other | GP22.h:9-11 | helper, with no counterpart in the enum: names the channel that setExpectedHits must leave alone, and is never the channel itself |
| Registers.DefaultConfigShape | GP22.h:143-151 | the default register file is exactly seven registers of four bytes |
| Registers.BigEndianWord | GP22.cpp:80-88 | the first reply byte becomes bits 24-31 of the assembled word, the fourth becomes bits 0-7 |
| Registers.BigEndianHalf | GP22.cpp:73-79 | the first reply byte becomes the high byte of the 16-bit word, the second the low byte |
| Registers.ToInt32 | GP22.cpp:53-58 | the unsigned reply read as int32_t: in range, and equal to the word, or to the word minus 2^32 when negative |
| Status.MeasuredHits | GP22.cpp:41-47 | the hit count of either channel is at most 7 |
| Status.ReadPointer | GP22.cpp:48-50 | the read pointer is at most 7 |
| Status.TimedOut | GP22.cpp:38-40 | timedOut: the timeout mask 0x0600 of the status word is non-zero; Status.TimedOutBits restates it bit by bit |
| Status.TimedOutBits | GP22.cpp:38-40 | timedOut holds exactly when bit 9 or bit 10 of the status word is set |
| Status.StatusFieldsPartition | GP22.cpp:41-50 | the read pointer, the CH1 count and the CH2 count are disjoint fields that together give back bits 0-8 of the status |
| Status.StatusExamples | GP22.cpp:38-50 | decoding of two sample status words: 0x0065 (pointer 5, 4 and 1 hits, no timeout) and 0x0600 (timeout, all fields 0) |
| Codec.MeasurementMode | GP22.cpp:164-166 | getMeasurementMode returns only 0 or 1, and 1 exactly when MESSB2 (bit 3) is set |
| Codec.WithMeasurementMode | GP22.cpp:142-163 | the byte setMeasurementMode stores: MESSB2 cleared for mode 1, set for mode 2, the byte unchanged for any other mode |
| Codec.MeasurementModeWrite | GP22.cpp:142-166 | after setting mode 1 or 2 the getter reads mode - 1, never the mode number itself |
| Codec.MeasurementModeKeeps | GP22.cpp:142-163 | setMeasurementMode changes no bit but MESSB2, and an argument other than 1 or 2 changes nothing |
| Codec.ClkPreDiv | GP22.cpp:190-208 | getClkPreDiv always returns 1, 2 or 4, and returns 1 exactly when both divider bits are clear |
| Codec.WithClkPreDiv | GP22.cpp:169-185 | the byte setClkPreDiv stores: bits 4-5 encode 1, 2 or 4 as 0, 1 or 2; any other divider leaves the byte |
| Codec.ClkPreDivRoundTrip | GP22.cpp:169-208 | the divider reads back as set for 1, 2 and 4, and as it was before for any other argument |
| Codec.ClkPreDivKeeps | GP22.cpp:169-185 | setClkPreDiv changes only bits 4-5, and an invalid divider leaves the byte unchanged |
| Codec.ConversionFactor | GP22.cpp:106-121 | the factor 2^-16 x 0.25 us x divider equals divider / 262144, as an exact real |
| Codec.ExpectedHits | GP22.cpp:239-245 | getExpectedHits returns at most 7 |
| Codec.WithExpectedHits | GP22.cpp:211-238 | the byte setExpectedHits stores: for 0..4 hits the channel's 3-bit field holds the count; for more hits the byte is kept |
| Codec.ExpectedHitsRoundTrip | GP22.cpp:211-245 | the channel's count reads back as set when it is at most 4; otherwise it reads what it read before |
| Codec.ExpectedHitsKeeps | GP22.cpp:211-238 | setExpectedHits keeps the other channel's count and bits 6-7 |
| Codec.Hit1Op | GP22.cpp:284-286 | the HIT1 operator is below 16 |
| Codec.Hit2Op | GP22.cpp:287-289 | the HIT2 operator is below 16 |
| Codec.WithHit1Op | GP22.cpp:258-270 | the byte defineHit1Op stores: low nibble cleared, then op added with uint8 wrap-around |
| Codec.WithHit2Op | GP22.cpp:271-283 | the byte defineHit2Op stores: high nibble cleared, then op << 4 (truncated to 8 bits) added with wrap-around |
| Codec.Hit1OpWrite | GP22.cpp:258-270 | after defineHit1Op(op), HIT1 reads op mod 16. HIT2 gains op / 16, mod 16, by the uint8 wrap-around |
| Codec.Hit2OpWrite | GP22.cpp:271-289 | after defineHit2Op(op), HIT2 reads op mod 16 and HIT1 is kept |
| Codec.AluInstructionWrite | GP22.cpp:247-250 | after both operator writes, each operator reads its instruction field mod 16, whatever the carry of the first write |
| Codec.WithEdgeReg0 | GP22.cpp:292-321 | the register 0 byte 2 that setEdgeSensitivity stores: the start, stop1 and stop2 polarity steps applied to bits 0, 1 and 2 in that order |
| Codec.WithPolarity | GP22.cpp:297-316 | one polarity step: the bit cleared for 0 (and for 2 on a stop), set for 1, kept for any other value |
| Codec.WithEdgeReg2 | GP22.cpp:305-320 | the register 2 byte 0 that setEdgeSensitivity stores: bit 3 set for stop1 == 2, bit 4 for stop2 == 2, nothing cleared |
| Codec.EdgeStartBit | GP22.cpp:296-299 | the start polarity bit becomes `start` for 0 or 1 and is kept for any other value |
| Codec.EdgeStop1Bit | GP22.cpp:301-310 | the stop1 polarity bit is written for 0 or 1, cleared for 2 and kept otherwise |
| Codec.EdgeStop2Bit | GP22.cpp:311-317 | the stop2 polarity bit is written for 0 or 1, cleared for 2 and kept otherwise |
| Codec.EdgeReg0Keeps | GP22.cpp:292-321 | setEdgeSensitivity leaves bits 3-7 of register 0 byte 2 alone |
| Codec.EdgeReg2Bits | GP22.cpp:305-320 | a stop of 2 sets its both-edges bit (3 or 4) of register 2 byte 0; no value clears it; no other bit changes |
| Codec.DoubleRes | GP22.cpp:342-344 | isDoubleRes: bit 4 of register 6 byte 2 |
| Codec.QuadRes | GP22.cpp:356-358 | isQuadRes: bit 5 of register 6 byte 2 |
| Codec.SingleRes | GP22.cpp:331-333 | isSingleRes: neither double nor quad |
| Codec.ResolutionExclusive | GP22.cpp:323-358 | the invariant every resolution setter keeps: bits 4 and 5 are not both set |
| Codec.WithSingleRes | GP22.cpp:323-333 | the stored byte is single resolution, keeps the two bits exclusive, and changes only bits 4-5 |
| Codec.WithDoubleRes | GP22.cpp:334-344 | the stored byte is double resolution, neither quad nor single, and changes only bits 4-5 |
| Codec.WithQuadRes | GP22.cpp:345-358 | the byte of the guarded branch is quad resolution, neither double nor single, and changes only bits 4-5 |
| Codec.ExactlyOneResolution | GP22.cpp:331-358 | when the two bits are not both set, exactly one of isSingleRes, isDoubleRes and isQuadRes holds |
| Codec.AutoCalcOn | GP22.cpp:369-371 | isAutoCalcOn: bit 7 of register 3 byte 0 |
| Codec.WithAutoCalc | GP22.cpp:359-371 | isAutoCalcOn reads back the value set, and only bit 7 changes |
| Codec.FirstWaveMode | GP22.cpp:381-383 | isFirstWaveMode: bit 6 of register 3 byte 0 |
| Codec.WithFirstWaveMode | GP22.cpp:373-383 | isFirstWaveMode is true afterwards, and only bit 6 changes |
| Codec.DelRel1 | GP22.cpp:393 | the DELREL1 field: bits 8-13 of register 3 |
| Codec.DelRel2 | GP22.cpp:394 | the DELREL2 field: bits 14-19 of register 3 |
| Codec.DelRel3 | GP22.cpp:395 | the DELREL3 field: bits 20-25 of register 3 |
| Codec.WithDelRel3 | GP22.cpp:397-406 | the DELREL3 step: bits 4-9 of the top half word cleared by `^ (& 0x03F0)`, then stop3 << 4 added with 16-bit wrap-around |
| Codec.WithDelRel2 | GP22.cpp:408-419 | the DELREL2 step: bits 6-11 of the middle half word cleared by `^ (& 0x0FC0)`, then stop2 << 6 added, and the two bytes put back |
| Codec.WithDelRel1 | GP22.cpp:421-428 | the DELREL1 step: bits 0-5 of byte 1 cleared, then stop1 added with 8-bit wrap-around |
| Codec.DelayPiece | GP22.cpp:385-428 | the local register 3 word setFirstWaveDelays assembles: the DELREL3, DELREL2 and DELREL1 steps in that order |
| Codec.DelRel3Write | GP22.cpp:397-406 | a DELREL3 of at most 63 is stored in bits 20-25 and nothing else changes |
| Codec.DelRel2Write | GP22.cpp:408-419 | a DELREL2 of at most 63 is stored in bits 14-19 and nothing else changes |
| Codec.DelRel1Write | GP22.cpp:421-428 | a DELREL1 of at most 63 is stored in bits 8-13 and nothing else changes |
| Codec.DelayPieceFields | GP22.cpp:385-428 | for stops of at most 63, the assembled word holds all three stops and keeps bits 0-7 and 26-31: the later steps do not disturb the earlier fields |
| Codec.PulseWidthMeasOn | GP22.cpp:444-446 | isPulseWidthMeasOn: bit 0 (DIS_PW) of register 4 byte 1 is clear |
| Codec.WithPulseWidthMeas | GP22.cpp:431-446 | isPulseWidthMeasOn reads back the value set (DIS_PW is active low), and only bit 0 changes |
| Codec.FirstWaveRisingEdge | GP22.cpp:460-462 | isFirstWaveRisingEdge: bit 7 of register 4 byte 2 is set, which the setter uses for the falling edge |
| Codec.WithFirstWaveRisingEdge | GP22.cpp:448-462 | isFirstWaveRisingEdge then answers the negation of the value set, and only bit 7 changes |
| Codec.OffsetCore | GP22.cpp:473-489 | the value left for the 5-bit field: offset - 20 above 15, offset + 20 below -16, the offset otherwise |
| Codec.FiveBitSigned | GP22.cpp:465-467 | the reference reading of the OFFS field as a 5-bit two's complement number in -16..15 |
| Codec.RangeExtension | GP22.cpp:527-534 | what getFirstWaveOffset adds for the range bits: -20 for bit 5, else +20 for bit 6, else 0 |
| Codec.FirstWaveOffset | GP22.cpp:512-537 | getFirstWaveOffset returns the raw 5-bit field plus the range extension, so a field of 16..31 is not read as negative |
| Codec.OffsetField | GP22.cpp:491-507 | the amount added into the cleared field fits in five bits |
| Codec.OffsetFieldValue | GP22.cpp:495-507 | the amount added is the core itself for 1..15, 32 plus the core for -16..-1, and 0 otherwise |
| Codec.OffsetFieldSigned | GP22.cpp:498-507 | the amount added is the 5-bit two's complement of any core in -16..15 |
| Codec.OffsetRange | GP22.cpp:473-489 | the byte after the range step: bit 6 set and bit 5 cleared above 15; bit 5 set and bit 6 cleared below -16; both cleared otherwise |
| Codec.WithFirstWaveOffset | GP22.cpp:464-511 | the byte setFirstWaveOffset stores: the range step, bits 0-4 cleared by `^ (& 0x1F)`, then the field of the core added |
| Codec.OffsetSplit | GP22.cpp:470-510 | bits 0-4 of the stored byte are the field; bits 5-7 come from the range choice |
| Codec.OffsetRangeBits | GP22.cpp:473-489 | bit 6 is set exactly above 15 and bit 5 exactly below -16, so at most one is set; bit 7 is kept |
| Codec.OffsetRangeExtension | GP22.cpp:473-489 | the range bits of the stored byte add +20 above 15, -20 below -16, and 0 otherwise |
| Codec.FirstWaveOffsetEncoding | GP22.cpp:464-511 | on the documented range -36..35, the field read as 5-bit signed, plus the range bits, gives back the offset |
| Codec.FirstWaveOffsetReadBack | GP22.cpp:464-537 | getter after setter returns: the offset when the core is non-negative; offset + 32 when it is negative; +20 / -20 beyond 35 / below -36 |
| Codec.FirstWaveOffsetRoundTrip | GP22.cpp:464-537 | getter after setter returns the offset if and only if it lies in -20..-17, 0..15 or 20..35 |
| Codec.DefaultReg0Reg1 | GP22.h:144-145 | at the defaults: divider 1; MESSB2 set (mode 2); CH1 expects 2 hits and CH2 none; HIT1 operator 1, HIT2 operator 2 |
| Codec.DefaultReg3Reg4 | GP22.h:147-148 | at the defaults: auto-calc off, first-wave mode off, pulse-width measurement on, first-wave offset 0 |
| Codec.DefaultResolution | GP22.h:150 | at the defaults quad resolution is on and double off, so the resolution bits start out exclusive |
| Pieces.ClkPreDivPiece | GP22.cpp:170-183 | the bitClear/bitSet steps of setClkPreDiv produce exactly the masked divider byte, including the unchanged byte for invalid dividers |
| Pieces.ExpectedHitsPiece | GP22.cpp:213-231 | three bitClear steps and the uint8 `+=` of setExpectedHits produce exactly the masked hits byte |
| Pieces.PolarityPiece | GP22.cpp:297-316 | one bitWrite/bitClear step of setEdgeSensitivity produces exactly the masked polarity bit |
| Pieces.EdgeSensitivityPieces | GP22.cpp:292-317 | the steps of setEdgeSensitivity produce exactly the two masked bytes of register 0 byte 2 and register 2 byte 0 |
| Pieces.FirstWaveOffsetPiece | GP22.cpp:470-507 | the range choice, the field clearing and the twosComp addition of setFirstWaveOffset produce exactly the masked offset byte |
| Driver.GP22.Valid | GP22.h:140-151 | the class invariant: the register file is 7 x 4, the resolution bits are exclusive, and the conversion factor is the one for the current divider |
| Driver.GP22.constructor | GP22.cpp:3-8 | the register file starts as the GP22.h defaults; the invariant holds, with the factor computed for the default divider; no transfer has been issued |
| Driver.GP22.ReadStatus | GP22.cpp:34-37 | opcode 0xB4 is issued with two zero bytes; the status becomes the two reply bytes, the first one high |
| Driver.GP22.TimedOut | GP22.cpp:38-40 | timedOut on the stored status word |
| Driver.GP22.GetMeasuredHits | GP22.cpp:41-47 | getMeasuredHits on the stored status word |
| Driver.GP22.GetReadPointer | GP22.cpp:48-50 | getReadPointer on the stored status word |
| Driver.GP22.ReadResult | GP22.cpp:53-63 | registers 0-3 are read with opcode 0xB0 + register, and the four reply bytes are returned as a signed 32-bit value; any other register returns 0 with no transfer |
| Driver.GP22.TestComms | GP22.cpp:90-99 | opcode 0xB5 is issued, and the result is true exactly when the echoed byte equals the shadow register 1 byte 0 |
| Driver.GP22.MeasConv | GP22.cpp:101-104 | the converted value is input x divider / 2^18 microseconds |
| Driver.GP22.UpdateConversionFactor | GP22.cpp:106-121 | the factor becomes the conversion factor of the current divider |
| Driver.GP22.RegisterTransfer | GP22.cpp:129 | the write of register i: opcode 0x80 + i followed by its four bytes in order |
| Driver.GP22.ConfigTransfers | GP22.cpp:128-129 | n register writes, the k-th being opcode 0x80 + k with register k's four bytes |
| Driver.GP22.UpdateConfig | GP22.cpp:123-130 | the trace is extended by the writes of registers 0 to 6, in order |
| Driver.GP22.GetConfig | GP22.cpp:132-137 | words 0..6 of the array become the registers packed most significant byte first; the rest of the array is untouched |
| Driver.GP22.GetMeasurementMode | GP22.cpp:164-166 | getMeasurementMode on register 0 byte 2 |
| Driver.GP22.SetMeasurementMode | GP22.cpp:142-163 | MESSB2 is updated; mode 1 turns active quad into double resolution; the getter then reads 0 or 1; only the two bytes change; the invariant is kept |
| Driver.GP22.GetClkPreDiv | GP22.cpp:190-208 | getClkPreDiv on register 0 byte 1 |
| Driver.GP22.SetClkPreDiv | GP22.cpp:169-189 | for 1, 2 or 4 the divider and the factor follow the argument; otherwise the factor is unchanged; only byte 1 of register 0 changes |
| Driver.GP22.GetExpectedHits | GP22.cpp:239-245 | getExpectedHits on register 1 byte 1 |
| Driver.GP22.SetExpectedHits | GP22.cpp:211-238 | 0..4 hits read back as set, the other channel is kept, more hits change nothing, and no other byte changes |
| Driver.GP22.GetHit1Op | GP22.cpp:284-286 | getHit1Op on register 1 byte 0 |
| Driver.GP22.GetHit2Op | GP22.cpp:287-289 | getHit2Op on register 1 byte 0 |
| Driver.GP22.DefineHit1Op | GP22.cpp:258-270 | HIT1 reads op mod 16; HIT2 is kept for op < 16; only register 1 byte 0 changes |
| Driver.GP22.DefineHit2Op | GP22.cpp:271-283 | HIT2 reads op mod 16; HIT1 is kept; only register 1 byte 0 changes |
| Driver.GP22.UpdateALUInstruction | GP22.cpp:247-255 | both operators read their instruction fields mod 16; only register 1 byte 0 changes; the single transfer is register 1's write |
| Driver.GP22.SetEdgeSensitivity | GP22.cpp:292-321 | the two stored bytes are the edge bytes of the arguments; no other byte changes |
| Driver.GP22.IsSingleRes | GP22.cpp:331-333 | isSingleRes: neither isDoubleRes nor isQuadRes |
| Driver.GP22.IsDoubleRes | GP22.cpp:342-344 | isDoubleRes on register 6 byte 2 |
| Driver.GP22.IsQuadRes | GP22.cpp:356-358 | isQuadRes on register 6 byte 2 |
| Driver.GP22.SetSingleRes | GP22.cpp:323-330 | single resolution afterwards; only register 6 byte 2 changes |
| Driver.GP22.SetDoubleRes | GP22.cpp:334-341 | double resolution afterwards, neither quad nor single; only register 6 byte 2 changes |
| Driver.GP22.SetQuadRes | GP22.cpp:345-355 | the mode guard never holds, so no byte changes |
| Driver.GP22.IsAutoCalcOn | GP22.cpp:369-371 | isAutoCalcOn on register 3 byte 0 |
| Driver.GP22.SetAutoCalcOn | GP22.cpp:359-368 | isAutoCalcOn reads back the argument; only register 3 byte 0 changes |
| Driver.GP22.IsFirstWaveMode | GP22.cpp:381-383 | isFirstWaveMode on register 3 byte 0 |
| Driver.GP22.SetFirstWaveMode | GP22.cpp:373-380 | isFirstWaveMode holds for either argument; only register 3 byte 0 changes |
| Driver.GP22.SetFirstWaveDelays | GP22.cpp:385-429 | the register file is unchanged |
| Driver.GP22.IsPulseWidthMeasOn | GP22.cpp:444-446 | isPulseWidthMeasOn on register 4 byte 1 |
| Driver.GP22.SetPulseWidthMeasOn | GP22.cpp:431-443 | isPulseWidthMeasOn reads back the argument; only register 4 byte 1 changes |
| Driver.GP22.IsFirstWaveRisingEdge | GP22.cpp:460-462 | isFirstWaveRisingEdge on register 4 byte 2 |
| Driver.GP22.SetFirstWaveRisingEdge | GP22.cpp:448-459 | isFirstWaveRisingEdge reads back the negation of the argument; only register 4 byte 2 changes |
| Driver.GP22.GetFirstWaveOffset | GP22.cpp:512-537 | getFirstWaveOffset on register 4 byte 2 |
| Driver.GP22.SetFirstWaveOffset | GP22.cpp:464-511 | the stored byte is the encoded offset; getFirstWaveOffset gives it back for -20..-17, 0..15 and 20..35; only register 4 byte 2 changes |

## Left out

- SPI transport: begin, the destructor, measure and the bodies of transfer1B, transfer2B and transfer4B call the Arduino SPI library. They are not modelled. Issued transfers are recorded in a ghost trace, and reply bytes are method parameters.
- The power-on-reset and start-measurement commands (0x50 and 0x70) are declared as opcodes only, because begin and measure are not modelled.
- The slave-select pin, the SPI clock divider, the data mode and the bit order are hardware plumbing and are left out.
- Driver.GP22.MeasConv: computes with exact reals, not 32-bit floats, so float rounding is not modelled.
- Codec.ConversionFactor: `pow(2.0, -16)` and the float products are taken as exact reals.
- The FourByte union is not modelled as aliased storage. Its little-endian byte order is stated by explicit shifts and masks (Registers.BigEndianWord, Registers.BigEndianHalf, and the DELREL steps).
- Driver.GP22.GetConfig: packs unsigned 32-bit words. It does not model the signed-int overflow of `_config[i][0] << 24` for bytes of 0x80 or more.
- GP22.h declares readResult as taking a uint8_t and returning a uint32_t, and measConv as taking a uint32_t and returning a float. GP22.cpp defines readResult to return an int32_t and measConv to take an int32_t. The model uses the GP22.cpp types.
- The `id` field of ALUInstruction is never read and is dropped.
- A Channel value outside CH1 and CH2 makes getMeasuredHits and getExpectedHits fall off their end in C. The Dafny Channel type has only the two values, so that case is not modelled.
- Driver.GP22.constructor: leaves the status word indeterminate, as the C constructor does.
- Driver.GP22.SetFirstWaveDelays: the register 3 word it assembles (Codec.DelayPiece) is discarded, as in the source. That is why the method has no modifies clause.
- Driver.GP22.SetQuadRes: its guarded branch cannot run. The byte it would store is described by Codec.WithQuadRes.
