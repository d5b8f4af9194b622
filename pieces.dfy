/** The local byte computations of the GP22.cpp setters that branch on their
    arguments: each works on a copy of the configuration byte, step by step
    with the bit macros as the source does, and is proved to produce the byte
    of the matching Codec function. The class in module Driver reads the byte,
    runs the computation and stores the result. */
module Pieces {
  import opened Bits
  import opened Registers
  import Codec

  /** setClkPreDiv's update of register 0 byte 1. */
  method ClkPreDivPiece(piece: bv8, div: bv8) returns (configPiece: bv8)
    ensures configPiece == Codec.WithClkPreDiv(piece, div)
  {
    configPiece := piece;
    if div == 1 || div == 2 || div == 4 {
      configPiece := BitClear(configPiece, 4);
      configPiece := BitClear(configPiece, 5);
      if div == 2 {
        configPiece := BitSet(configPiece, 4);
      } else if div == 4 {
        configPiece := BitSet(configPiece, 5);
      }
    }
  }

  /** setExpectedHits's update of register 1 byte 1. */
  method ExpectedHitsPiece(piece: bv8, channel: Channel, hits: bv8) returns (configPiece: bv8)
    ensures configPiece == Codec.WithExpectedHits(piece, channel, hits)
  {
    configPiece := piece;
    if hits <= 4 {
      match channel
      case CH1 =>
        configPiece := BitClear(configPiece, 0);
        configPiece := BitClear(configPiece, 1);
        configPiece := BitClear(configPiece, 2);
        configPiece := configPiece + hits;
      case CH2 =>
        configPiece := BitClear(configPiece, 3);
        configPiece := BitClear(configPiece, 4);
        configPiece := BitClear(configPiece, 5);
        configPiece := configPiece + (hits << 3);
    }
  }

  /** One polarity bit of setEdgeSensitivity: bitWrite(piece, n, edge) for
      edge 0 or 1, bitClear(piece, n) for edge 2 where both edges are allowed,
      the byte unchanged otherwise. */
  method PolarityPiece(piece: bv8, n: nat, edge: bv8, bothAllowed: bool) returns (configPiece: bv8)
    requires n < 8
    ensures configPiece == Codec.WithPolarity(piece, BitMask(n), edge, bothAllowed)
  {
    configPiece := piece;
    if edge == 0 || edge == 1 {
      configPiece := BitWrite(configPiece, n, edge == 1);
    } else if bothAllowed && edge == 2 {
      configPiece := BitClear(configPiece, n);
    }
  }

  /** setEdgeSensitivity's updates of register 0 byte 2 and register 2 byte 0:
      the start polarity in bit 0, stop 1 in bit 1 and stop 2 in bit 2 of the
      first; the both-edges flags of stop 1 and stop 2 in bits 3 and 4 of the
      second. */
  method EdgeSensitivityPieces(piece0: bv8, piece2: bv8, start: bv8, stop1: bv8, stop2: bv8)
    returns (reg0p2: bv8, reg2p0: bv8)
    ensures reg0p2 == Codec.WithEdgeReg0(piece0, start, stop1, stop2)
    ensures reg2p0 == Codec.WithEdgeReg2(piece2, stop1, stop2)
  {
    reg2p0 := piece2;
    reg0p2 := PolarityPiece(piece0, 0, start, false);
    reg0p2 := PolarityPiece(reg0p2, 1, stop1, true);
    if stop1 == 2 {
      reg2p0 := BitSet(reg2p0, 3);
    }
    reg0p2 := PolarityPiece(reg0p2, 2, stop2, true);
    if stop2 == 2 {
      reg2p0 := BitSet(reg2p0, 4);
    }
  }

  /** setFirstWaveOffset's update of register 4 byte 2. */
  method FirstWaveOffsetPiece(piece: bv8, offset: int8) returns (configPiece: bv8)
    ensures configPiece == Codec.WithFirstWaveOffset(piece, offset)
  {
    configPiece := piece;
    var adjusted: int := offset;
    if adjusted > 15 {
      adjusted := adjusted - 20;
      configPiece := BitSet(configPiece, 6);
      configPiece := BitClear(configPiece, 5);
    } else if adjusted < -16 {
      adjusted := adjusted + 20;
      configPiece := BitSet(configPiece, 5);
      configPiece := BitClear(configPiece, 6);
    } else {
      configPiece := BitClear(configPiece, 5);
      configPiece := BitClear(configPiece, 6);
    }
    configPiece := configPiece ^ (configPiece & 0x1F);
    if 0 < adjusted <= 15 {
      configPiece := configPiece + adjusted as bv8;
    } else if -16 <= adjusted < 0 {
      var twosComp: bv8 := 31;
      twosComp := (twosComp as int + (adjusted + 1)) as bv8;
      configPiece := configPiece + twosComp;
    }
  }
}
