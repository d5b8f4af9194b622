/** The GP22 driver object of GP22.cpp: the shadow configuration register
    file, the last status word, the precomputed conversion factor, and the
    setters that update the register file in place. Bus transfers are recorded
    in a ghost trace; the bytes the device sends back are parameters. */
module Driver {
  import opened Bits
  import opened Registers
  import Codec
  import Status
  import Pieces

  class GP22 {
    /** _config[7][4]: seven registers of four bytes, most significant byte first. */
    const config: array2<bv8>
    /** _status: the status word of the last readStatus. */
    var status: bv16
    /** _conversionFactor, as an exact real. */
    var conversionFactor: real
    /** Every bus transfer issued so far. */
    ghost var trace: seq<Transfer>

    /** The register file keeps its 7 x 4 shape, the double and quad
        resolution bits are never both set, and the conversion factor matches
        the current clock pre-divider. */
    ghost predicate Valid()
      reads this, config
    {
      && config.Length0 == RegisterCount && config.Length1 == BytesPerRegister
      && Codec.ResolutionExclusive(config[6, 2])
      && conversionFactor == Codec.ConversionFactor(Codec.ClkPreDiv(config[0, 1]))
    }

    /** Between the old and the new state no byte outside `cells` changed. */
    twostate predicate ChangedAtMost(cells: set<(int, int)>)
      reads config
    {
      forall i, j :: 0 <= i < config.Length0 && 0 <= j < config.Length1 && (i, j) !in cells ==>
        config[i, j] == old(config[i, j])
    }

    /** The default register file, with the factor for its divider. The
        status word is left indeterminate until the first readStatus. */
    constructor ()
      ensures Valid() && fresh(config)
      ensures forall i, j :: 0 <= i < 7 && 0 <= j < 4 ==> config[i, j] == DefaultConfig[i][j]
      ensures trace == []
    {
      config := new bv8[7, 4]((i, j) => if 0 <= i < |DefaultConfig| && 0 <= j < 4 then DefaultConfig[i][j] else 0);
      trace := [];
      new;
      DefaultConfigShape();
      Codec.DefaultResolution();
      UpdateConversionFactor();
    }

    // -------------------------------------------------------------------
    // Status

    /** readStatus: the two reply bytes of the 0xB4 read, first one high. */
    method ReadStatus(high: bv8, low: bv8)
      modifies this`status, this`trace
      ensures status == BigEndianHalf(high, low)
      ensures trace == old(trace) + [Transfer(ReadStatusCode, [0, 0])]
    {
      status := BigEndianHalf(high, low);
      trace := trace + [Transfer(ReadStatusCode, [0, 0])];
    }

    predicate TimedOut()
      reads this
    {
      Status.TimedOut(status)
    }

    function GetMeasuredHits(channel: Channel): bv8
      reads this
    {
      Status.MeasuredHits(status, channel)
    }

    function GetReadPointer(): bv8
      reads this
    {
      Status.ReadPointer(status)
    }

    // -------------------------------------------------------------------
    // Results, comms test, conversion

    /** readResult: a register below 4 is read with opcode 0xB0 + register and
        the four reply bytes (first one most significant) are returned as a
        signed 32-bit value; any other register returns 0 without a transfer. */
    method ReadResult(resultRegister: bv8, reply: Register) returns (value: int32)
      modifies this`trace
      ensures resultRegister < 4 ==>
        value == ToInt32(BigEndianWord(reply[0], reply[1], reply[2], reply[3]))
        && trace == old(trace) + [Transfer(ReadResultBase + resultRegister, [0, 0, 0, 0])]
      ensures resultRegister >= 4 ==> value == 0 && trace == old(trace)
    {
      if resultRegister < 4 {
        var readCode := ReadResultBase + resultRegister;
        trace := trace + [Transfer(readCode, [0, 0, 0, 0])];
        value := ToInt32(BigEndianWord(reply[0], reply[1], reply[2], reply[3]));
      } else {
        value := 0;
      }
    }

    /** testComms: the byte echoed by the 0xB5 read must equal the shadow
        copy of register 1 byte 0. */
    method TestComms(echo: bv8) returns (ok: bool)
      requires Valid()
      modifies this`trace
      ensures ok <==> echo == config[1, 0]
      ensures trace == old(trace) + [Transfer(ReadReg1Code, [0])]
    {
      trace := trace + [Transfer(ReadReg1Code, [0])];
      var test := echo as int;
      if test == config[1, 0] as int {
        ok := true;
      } else {
        ok := false;
      }
    }

    /** measConv: a raw result in microseconds, input * divider / 2^18. */
    function MeasConv(input: int32): (us: real)
      reads this, config
      requires Valid()
      ensures us * 262144.0 == (input as real) * ((Codec.ClkPreDiv(config[0, 1]) as int) as real)
    {
      (input as real) * conversionFactor
    }

    /** updateConversionFactor: recompute the factor from the divider. */
    method UpdateConversionFactor()
      requires config.Length0 == RegisterCount && config.Length1 == BytesPerRegister
      modifies this`conversionFactor
      ensures conversionFactor == Codec.ConversionFactor(Codec.ClkPreDiv(config[0, 1]))
    {
      conversionFactor := Codec.ConversionFactor(GetClkPreDiv());
    }

    // -------------------------------------------------------------------
    // Pushing and exporting the register file

    /** The write transfer of register i: opcode 0x80 + i and its four bytes in order. */
    function RegisterTransfer(i: nat): Transfer
      reads config
      requires i < 7 && config.Length0 == 7 && config.Length1 == 4
    {
      Transfer(WriteConfigBase + i as bv8, [config[i, 0], config[i, 1], config[i, 2], config[i, 3]])
    }

    /** The write transfers of registers 0 .. n-1, in index order. */
    function ConfigTransfers(n: nat): (ts: seq<Transfer>)
      reads config
      requires n <= 7 && config.Length0 == 7 && config.Length1 == 4
      ensures |ts| == n
      ensures forall k :: 0 <= k < n ==> ts[k] == RegisterTransfer(k)
    {
      if n == 0 then [] else ConfigTransfers(n - 1) + [RegisterTransfer(n - 1)]
    }

    /** updateConfig: one four-byte write per register, registers 0 to 6. */
    method UpdateConfig()
      requires Valid()
      modifies this`trace
      ensures trace == old(trace) + ConfigTransfers(7)
    {
      for i := 0 to 7
        invariant trace == old(trace) + ConfigTransfers(i)
      {
        trace := trace + [Transfer(WriteConfigBase + i as bv8, [config[i, 0], config[i, 1], config[i, 2], config[i, 3]])];
      }
    }

    /** getConfig: word i of the caller's array becomes register i, byte 0
        most significant; the rest of the array is left alone. */
    method GetConfig(arrayToFill: array<bv32>)
      requires Valid()
      requires arrayToFill.Length >= 7
      modifies arrayToFill
      ensures forall i :: 0 <= i < 7 ==>
        arrayToFill[i] == BigEndianWord(config[i, 0], config[i, 1], config[i, 2], config[i, 3])
      ensures forall i :: 7 <= i < arrayToFill.Length ==> arrayToFill[i] == old(arrayToFill[i])
    {
      for i := 0 to 7
        invariant forall k :: 0 <= k < i ==>
          arrayToFill[k] == BigEndianWord(config[k, 0], config[k, 1], config[k, 2], config[k, 3])
        invariant forall k :: 7 <= k < arrayToFill.Length ==> arrayToFill[k] == old(arrayToFill[k])
      {
        arrayToFill[i] := BigEndianWord(config[i, 0], config[i, 1], config[i, 2], config[i, 3]);
      }
    }

    // -------------------------------------------------------------------
    // Measurement mode and clock pre-divider

    function GetMeasurementMode(): bv8
      reads this, config
      requires Valid()
    {
      Codec.MeasurementMode(config[0, 2])
    }

    /** setMeasurementMode: 1 clears MESSB2 and turns an active quad
        resolution into double, 2 sets MESSB2, anything else changes nothing. */
    method SetMeasurementMode(mode: bv8)
      requires Valid()
      modifies config
      ensures Valid()
      ensures config[0, 2] == Codec.WithMeasurementMode(old(config[0, 2]), mode)
      ensures config[6, 2] == if mode == 1 && Codec.QuadRes(old(config[6, 2]))
                              then Codec.WithDoubleRes(old(config[6, 2])) else old(config[6, 2])
      ensures ChangedAtMost({(0, 2), (6, 2)})
      ensures mode == 1 ==> GetMeasurementMode() == 0 && !IsQuadRes()
      ensures mode == 1 && old(IsQuadRes()) ==> IsDoubleRes()
      ensures mode == 2 ==> GetMeasurementMode() == 1
    {
      var configPiece := config[0, 2];
      if mode == 1 {
        configPiece := BitClear(configPiece, 3);
        if IsQuadRes() {
          SetDoubleRes();
        }
      } else if mode == 2 {
        configPiece := BitSet(configPiece, 3);
      }
      config[0, 2] := configPiece;
      if mode == 1 || mode == 2 {
        Codec.MeasurementModeWrite(old(config[0, 2]), mode);
      }
    }

    function GetClkPreDiv(): bv8
      reads config
      requires config.Length0 == RegisterCount && config.Length1 == BytesPerRegister
    {
      Codec.ClkPreDiv(config[0, 1])
    }

    /** setClkPreDiv: 1, 2 or 4 is encoded in bits 4-5 of register 0 byte 1,
        anything else leaves it; the conversion factor is recomputed either way. */
    method SetClkPreDiv(div: bv8)
      requires Valid()
      modifies config, this`conversionFactor
      ensures Valid()
      ensures config[0, 1] == Codec.WithClkPreDiv(old(config[0, 1]), div)
      ensures ChangedAtMost({(0, 1)})
      ensures div == 1 || div == 2 || div == 4 ==>
        GetClkPreDiv() == div && conversionFactor == Codec.ConversionFactor(div)
      ensures !(div == 1 || div == 2 || div == 4) ==> conversionFactor == old(conversionFactor)
    {
      var configPiece := Pieces.ClkPreDivPiece(config[0, 1], div);
      config[0, 1] := configPiece;
      UpdateConversionFactor();
      Codec.ClkPreDivRoundTrip(old(config[0, 1]), div);
      Codec.ClkPreDivKeeps(old(config[0, 1]), div);
    }

    // -------------------------------------------------------------------
    // Expected hits

    function GetExpectedHits(channel: Channel): bv8
      reads this, config
      requires Valid()
    {
      Codec.ExpectedHits(config[1, 1], channel)
    }

    /** setExpectedHits: 0..4 hits go into the channel's field of register 1
        byte 1; more hits change nothing. */
    method SetExpectedHits(channel: Channel, hits: bv8)
      requires Valid()
      modifies config
      ensures Valid()
      ensures config[1, 1] == Codec.WithExpectedHits(old(config[1, 1]), channel, hits)
      ensures ChangedAtMost({(1, 1)})
      ensures hits <= 4 ==> GetExpectedHits(channel) == hits
      ensures GetExpectedHits(channel.Other()) == old(GetExpectedHits(channel.Other()))
      ensures hits > 4 ==> ChangedAtMost({})
    {
      var configPiece := Pieces.ExpectedHitsPiece(config[1, 1], channel, hits);
      config[1, 1] := configPiece;
      Codec.ExpectedHitsRoundTrip(old(config[1, 1]), channel, hits);
      Codec.ExpectedHitsKeeps(old(config[1, 1]), channel, hits);
    }

    // -------------------------------------------------------------------
    // ALU hit operators

    function GetHit1Op(): bv8
      reads this, config
      requires Valid()
    {
      Codec.Hit1Op(config[1, 0])
    }

    function GetHit2Op(): bv8
      reads this, config
      requires Valid()
    {
      Codec.Hit2Op(config[1, 0])
    }

    /** defineHit1Op: the low nibble of register 1 byte 0 is cleared and op added. */
    method DefineHit1Op(op: bv8)
      requires Valid()
      modifies config
      ensures Valid()
      ensures config[1, 0] == Codec.WithHit1Op(old(config[1, 0]), op)
      ensures ChangedAtMost({(1, 0)})
      ensures GetHit1Op() == op % 16
      ensures op < 16 ==> GetHit2Op() == old(GetHit2Op())
    {
      var configPiece := config[1, 0];
      var cleared := ClearBits(configPiece, 0, 4);
      ClearedLowNibble(configPiece, cleared);
      configPiece := cleared + op;
      config[1, 0] := configPiece;
      Codec.Hit1OpWrite(old(config[1, 0]), op);
    }

    /** defineHit2Op: the high nibble of register 1 byte 0 is cleared and op << 4 added. */
    method DefineHit2Op(op: bv8)
      requires Valid()
      modifies config
      ensures Valid()
      ensures config[1, 0] == Codec.WithHit2Op(old(config[1, 0]), op)
      ensures ChangedAtMost({(1, 0)})
      ensures GetHit2Op() == op % 16
      ensures GetHit1Op() == old(GetHit1Op())
    {
      var configPiece := config[1, 0];
      var cleared := ClearBits(configPiece, 4, 8);
      ClearedHighNibble(configPiece, cleared);
      configPiece := cleared + (op << 4);
      config[1, 0] := configPiece;
      Codec.Hit2OpWrite(old(config[1, 0]), op);
    }

    /** updateALUInstruction: both operators are defined, then register 1
        alone is written with opcode 0x81. */
    method UpdateALUInstruction(instruction: ALUInstruction)
      requires Valid()
      modifies config, this`trace
      ensures Valid()
      ensures config[1, 0] == Codec.WithHit2Op(Codec.WithHit1Op(old(config[1, 0]), instruction.hit1Op), instruction.hit2Op)
      ensures ChangedAtMost({(1, 0)})
      ensures GetHit1Op() == instruction.hit1Op % 16 && GetHit2Op() == instruction.hit2Op % 16
      ensures trace == old(trace) + [RegisterTransfer(1)]
    {
      DefineHit1Op(instruction.hit1Op);
      DefineHit2Op(instruction.hit2Op);
      Codec.AluInstructionWrite(old(config[1, 0]), instruction);
      trace := trace + [Transfer(WriteConfigBase + 1, [config[1, 0], config[1, 1], config[1, 2], config[1, 3]])];
    }

    // -------------------------------------------------------------------
    // Edge sensitivity

    /** setEdgeSensitivity: polarity bits in register 0 byte 2, both-edge
        bits in register 2 byte 0; out-of-range arguments keep their bits. */
    method SetEdgeSensitivity(start: bv8, stop1: bv8, stop2: bv8)
      requires Valid()
      modifies config
      ensures Valid()
      ensures config[0, 2] == Codec.WithEdgeReg0(old(config[0, 2]), start, stop1, stop2)
      ensures config[2, 0] == Codec.WithEdgeReg2(old(config[2, 0]), stop1, stop2)
      ensures ChangedAtMost({(0, 2), (2, 0)})
    {
      var reg0p2, reg2p0 := Pieces.EdgeSensitivityPieces(config[0, 2], config[2, 0], start, stop1, stop2);
      config[0, 2] := reg0p2;
      config[2, 0] := reg2p0;
    }

    // -------------------------------------------------------------------
    // Resolution

    predicate IsSingleRes()
      reads this, config
      requires Valid()
    {
      !IsDoubleRes() && !IsQuadRes()
    }

    predicate IsDoubleRes()
      reads this, config
      requires Valid()
    {
      Codec.DoubleRes(config[6, 2])
    }

    predicate IsQuadRes()
      reads this, config
      requires Valid()
    {
      Codec.QuadRes(config[6, 2])
    }

    /** setSingleRes: both resolution bits cleared. */
    method SetSingleRes()
      requires Valid()
      modifies config
      ensures Valid()
      ensures config[6, 2] == Codec.WithSingleRes(old(config[6, 2]))
      ensures ChangedAtMost({(6, 2)})
      ensures IsSingleRes() && !IsDoubleRes() && !IsQuadRes()
    {
      var configPiece := config[6, 2];
      configPiece := BitClear(configPiece, 4);
      configPiece := BitClear(configPiece, 5);
      config[6, 2] := configPiece;
    }

    /** setDoubleRes: double set, quad cleared. */
    method SetDoubleRes()
      requires Valid()
      modifies config
      ensures Valid()
      ensures config[6, 2] == Codec.WithDoubleRes(old(config[6, 2]))
      ensures ChangedAtMost({(6, 2)})
      ensures IsDoubleRes() && !IsQuadRes() && !IsSingleRes()
    {
      var configPiece := config[6, 2];
      configPiece := BitSet(configPiece, 4);
      configPiece := BitClear(configPiece, 5);
      config[6, 2] := configPiece;
    }

    /** setQuadRes: guarded by getMeasurementMode() == 2, which never holds
        because the getter returns the raw bit 0 or 1; nothing changes. The
        guarded branch would store Codec.WithQuadRes(config[6, 2]). */
    method SetQuadRes()
      requires Valid()
      modifies config
      ensures Valid()
      ensures ChangedAtMost({})
    {
      if GetMeasurementMode() == 2 {
        assert false;
      }
    }

    // -------------------------------------------------------------------
    // Auto-calc and first-wave settings of register 3

    predicate IsAutoCalcOn()
      reads this, config
      requires Valid()
    {
      Codec.AutoCalcOn(config[3, 0])
    }

    /** setAutoCalcOn: bit 7 of register 3 byte 0. */
    method SetAutoCalcOn(on: bool)
      requires Valid()
      modifies config
      ensures Valid()
      ensures config[3, 0] == Codec.WithAutoCalc(old(config[3, 0]), on)
      ensures ChangedAtMost({(3, 0)})
      ensures IsAutoCalcOn() == on
    {
      var configPiece := config[3, 0];
      if on {
        configPiece := BitSet(configPiece, 7);
      } else {
        configPiece := BitClear(configPiece, 7);
      }
      config[3, 0] := configPiece;
    }

    predicate IsFirstWaveMode()
      reads this, config
      requires Valid()
    {
      Codec.FirstWaveMode(config[3, 0])
    }

    /** setFirstWaveMode: sets bit 6 of register 3 byte 0 whatever `on` is. */
    method SetFirstWaveMode(on: bool)
      requires Valid()
      modifies config
      ensures Valid()
      ensures config[3, 0] == Codec.WithFirstWaveMode(old(config[3, 0]))
      ensures ChangedAtMost({(3, 0)})
      ensures IsFirstWaveMode()
    {
      var configPiece := config[3, 0];
      configPiece := BitSet(configPiece, 6);
      config[3, 0] := configPiece;
    }

    /** setFirstWaveDelays: assembles the DELREL fields in a local copy of
        register 3 (Codec.DelayPiece) and never stores it, so the register
        file is unchanged. */
    method SetFirstWaveDelays(stop1: bv8, stop2: bv8, stop3: bv8)
      requires Valid()
      ensures unchanged(config)
    {
      var configPiece := BigEndianWord(config[3, 0], config[3, 1], config[3, 2], config[3, 3]);
      configPiece := Codec.DelayPiece(configPiece, stop1, stop2, stop3);
    }

    // -------------------------------------------------------------------
    // First-wave settings of register 4

    predicate IsPulseWidthMeasOn()
      reads this, config
      requires Valid()
    {
      Codec.PulseWidthMeasOn(config[4, 1])
    }

    /** setPulseWidthMeasOn: the active-low DIS_PW bit 0 of register 4 byte 1. */
    method SetPulseWidthMeasOn(on: bool)
      requires Valid()
      modifies config
      ensures Valid()
      ensures config[4, 1] == Codec.WithPulseWidthMeas(old(config[4, 1]), on)
      ensures ChangedAtMost({(4, 1)})
      ensures IsPulseWidthMeasOn() == on
    {
      var configPiece := config[4, 1];
      if on {
        configPiece := BitClear(configPiece, 0);
      } else {
        configPiece := BitSet(configPiece, 0);
      }
      config[4, 1] := configPiece;
    }

    predicate IsFirstWaveRisingEdge()
      reads this, config
      requires Valid()
    {
      Codec.FirstWaveRisingEdge(config[4, 2])
    }

    /** setFirstWaveRisingEdge: rising clears bit 7 of register 4 byte 2,
        falling sets it; the getter reports bit 7 set, the opposite. */
    method SetFirstWaveRisingEdge(on: bool)
      requires Valid()
      modifies config
      ensures Valid()
      ensures config[4, 2] == Codec.WithFirstWaveRisingEdge(old(config[4, 2]), on)
      ensures ChangedAtMost({(4, 2)})
      ensures IsFirstWaveRisingEdge() == !on
    {
      var configPiece := config[4, 2];
      if on {
        configPiece := BitClear(configPiece, 7);
      } else {
        configPiece := BitSet(configPiece, 7);
      }
      config[4, 2] := configPiece;
    }

    function GetFirstWaveOffset(): int8
      reads this, config
      requires Valid()
    {
      Codec.FirstWaveOffset(config[4, 2])
    }

    /** setFirstWaveOffset: range bits 5/6 and the 5-bit two's complement core
        of register 4 byte 2. */
    method SetFirstWaveOffset(offset: int8)
      requires Valid()
      modifies config
      ensures Valid()
      ensures config[4, 2] == Codec.WithFirstWaveOffset(old(config[4, 2]), offset)
      ensures ChangedAtMost({(4, 2)})
      ensures (-20 <= offset <= -17 || 0 <= offset <= 15 || 20 <= offset <= 35) ==>
        GetFirstWaveOffset() == offset
    {
      var configPiece := Pieces.FirstWaveOffsetPiece(config[4, 2], offset);
      config[4, 2] := configPiece;
      Codec.FirstWaveOffsetRoundTrip(old(config[4, 2]), offset);
    }
  }
}
