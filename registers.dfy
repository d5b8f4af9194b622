/** The declarations of GP22.h: the channel names, the ALU instruction record,
    the byte order of the FourByte union used to assemble bus replies, the
    opcodes and the default contents of the 7 x 4 byte configuration register
    file. */
module Registers {

  /** The two stop channels. */
  datatype Channel = CH1 | CH2
  {
    function Other(): (c: Channel)
      ensures c != this
    {
      if this == CH1 then CH2 else CH1
    }
  }

  /** The pair of ALU hit operators written together (the unused `id` field is dropped). */
  datatype ALUInstruction = ALUInstruction(hit1Op: bv8, hit2Op: bv8)

  /** One bus transaction sent to the device: the opcode and the bytes clocked out after it. */
  datatype Transfer = Transfer(opcode: bv8, payload: seq<bv8>)

  /** One configuration register: exactly four bytes, most significant first. */
  type Register = s: seq<bv8> | |s| == 4 witness [0, 0, 0, 0]

  const RegisterCount: nat := 7
  const BytesPerRegister: nat := 4

  /** Opcodes. */
  const PowerOnReset: bv8 := 0x50
  const StartMeasurement: bv8 := 0x70
  const WriteConfigBase: bv8 := 0x80   // write register i: 0x80 + i
  const ReadResultBase: bv8 := 0xB0    // read result register i: 0xB0 + i
  const ReadStatusCode: bv8 := 0xB4
  const ReadReg1Code: bv8 := 0xB5      // echo of the high byte of register 1

  /** Measurement mode 2, single pulse: the initial shadow register file. */
  const DefaultConfig: seq<Register> := [
    [0xF3, 0x07, 0x68, 0x00], // Reg 0
    [0x21, 0x42, 0x00, 0x00], // Reg 1
    [0x20, 0x00, 0x00, 0x00], // Reg 2
    [0x20, 0x00, 0x00, 0x00], // Reg 3
    [0x20, 0x00, 0x00, 0x00], // Reg 4
    [0x40, 0x00, 0x00, 0x00], // Reg 5
    [0x40, 0x20, 0x60, 0x00]  // Reg 6
  ]

  /** The default table has exactly seven registers of four bytes each. */
  lemma DefaultConfigShape()
    ensures |DefaultConfig| == RegisterCount
    ensures forall i :: 0 <= i < |DefaultConfig| ==> |DefaultConfig[i]| == BytesPerRegister
  {
  }

  /** The 32-bit value of four bytes, the first one most significant: how
      transfer4B assembles a reply through FourByte (bit8[3] is the most
      significant byte of bit32 on a little-endian target), and how getConfig
      packs a register. */
  function BigEndianWord(b0: bv8, b1: bv8, b2: bv8, b3: bv8): (w: bv32)
    ensures (w >> 24) as bv8 == b0
    ensures ((w >> 16) & 0xFF) as bv8 == b1
    ensures ((w >> 8) & 0xFF) as bv8 == b2
    ensures (w & 0xFF) as bv8 == b3
  {
    ((b0 as bv32) << 24) | ((b1 as bv32) << 16) | ((b2 as bv32) << 8) | (b3 as bv32)
  }

  /** The 16-bit value of two reply bytes, the first one most significant: how
      transfer2B assembles a reply through FourByte (bit8[1] is the high byte of bit16[0]). */
  function BigEndianHalf(b0: bv8, b1: bv8): (h: bv16)
    ensures (h >> 8) as bv8 == b0
    ensures (h & 0xFF) as bv8 == b1
  {
    ((b0 as bv16) << 8) | (b1 as bv16)
  }

  /** A 32-bit word read as a two's complement int32_t. */
  function ToInt32(w: bv32): (x: int)
    ensures -0x8000_0000 <= x < 0x8000_0000
    ensures w as int == if x < 0 then x + 0x1_0000_0000 else x
  {
    var u := w as int;
    if u < 0x8000_0000 then u else u - 0x1_0000_0000
  }
}
