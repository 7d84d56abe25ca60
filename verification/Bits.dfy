/** A byte as eight bits: the masks that the codec uses. */
module Bits {
  import opened Conversions

  type Flag = bv8

  predicate IsSet(flag: Flag, flags: bv8) {
    (flags & flag) != 0
  }

  /** The flags byte after `set` was called for each flag. */
  function SetAll(flags: seq<Flag>): bv8 {
    if flags == [] then 0 else SetAll(flags[..|flags| - 1]) | flags[|flags| - 1]
  }

  /** A byte after `set` was called for a flag. */
  function SetBits(b: int, flag: Flag): (r: int)
    requires 0 <= b < 256
    ensures 0 <= r < 256
  {
    ((b as bv8) | flag) as int
  }

  lemma SetOneMore(bits: bv8, flag: Flag)
    ensures 0 <= bits as int < 256 && SetBits(bits as int, flag) == (bits | flag) as int
  {
    BitsRoundTrip(bits);
  }

  /** Masking with 0x7F clears the first bit and nothing else. */
  function ClearFirstBit(b: int): (r: int)
    requires 0 <= b < 256
    ensures r == b % 128
  {
    MaskIsRemainder(b as bv8);
    ByteRoundTrip(b);
    ((b as bv8) & 0x7F) as int
  }
}
