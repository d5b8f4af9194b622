/** The decoders of the 16-bit status word fetched by readStatus. */
module Status {
  import opened Registers

  /** timedOut: either timeout flag (bits 9 and 10, mask 0x0600) is set. */
  predicate TimedOut(status: bv16)
  {
    status & 0x0600 > 0
  }

  /** getMeasuredHits: channel 1 in bits 3-5, channel 2 in bits 6-8. */
  function MeasuredHits(status: bv16, channel: Channel): (hits: bv8)
    ensures hits <= 7
  {
    match channel
    case CH1 => ((status & 0x0038) >> 3) as bv8
    case CH2 => ((status & 0x01C0) >> 6) as bv8
  }

  /** getReadPointer: bits 0-2. */
  function ReadPointer(status: bv16): (pointer: bv8)
    ensures pointer <= 7
  {
    (status & 0x0007) as bv8
  }

  /** The timeout flag is exactly bit 9 or bit 10. */
  lemma TimedOutBits(status: bv16)
    ensures TimedOut(status) <==> (status >> 9) & 1 == 1 || (status >> 10) & 1 == 1
  {
  }

  /** The read pointer and the two hit counts are disjoint fields that
      together make up bits 0-8 of the status word. */
  lemma StatusFieldsPartition(status: bv16)
    ensures status & 0x01FF ==
      ((MeasuredHits(status, CH2) as bv16) << 6) | ((MeasuredHits(status, CH1) as bv16) << 3)
      | (ReadPointer(status) as bv16)
  {
  }

  /** Two sample words: 0x0065 has read pointer 5, one CH2 hit and four CH1
      hits and no timeout; 0x0600 has every field zero and the timeout flag. */
  lemma StatusExamples()
    ensures ReadPointer(0x0065) == 5 && MeasuredHits(0x0065, CH1) == 4
    ensures MeasuredHits(0x0065, CH2) == 1 && !TimedOut(0x0065)
    ensures TimedOut(0x0600) && ReadPointer(0x0600) == 0
    ensures MeasuredHits(0x0600, CH1) == 0 && MeasuredHits(0x0600, CH2) == 0
  {
  }
}
