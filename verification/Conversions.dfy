/** Numbers and bit vectors of eight bits, one and the same. */
module Conversions {

  lemma BitsRoundTrip(bits: bv8)
    ensures (bits as int) as bv8 == bits
  {
  }

  lemma Successor(bits: bv8)
    requires bits != 0xFF
    ensures (bits + 1) as int == bits as int + 1
  {
  }

  /** Every byte has its bits. */
  lemma {:induction false} BitsOf(b: int) returns (bits: bv8)
    requires 0 <= b < 256
    ensures bits as int == b
    decreases b
  {
    bits := 0;
    if b > 0 {
      var fewer := BitsOf(b - 1);
      Successor(fewer);
      bits := fewer + 1;
    }
  }

  lemma ByteRoundTrip(b: int)
    requires 0 <= b < 256
    ensures (b as bv8) as int == b
  {
    var bits := BitsOf(b);
    BitsRoundTrip(bits);
  }

  lemma MaskIsRemainder(bits: bv8)
    ensures (bits & 0x7F) as int == (bits as int) % 128
  {
  }

  lemma HighBitIsSet(bits: bv8)
    ensures (bits | 0x80) as int == (bits as int) % 128 + 128
  {
  }
}
