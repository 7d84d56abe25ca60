/** Numbers and flags as bytes on the wire: big-endian packing, the reserved bit, flag bits. */
module Bytes {
  import opened Frames
  import opened Bits

  const UINT31 := 0x8000_0000

  function Pow256(k: nat): (r: nat)
    ensures r > 0
  {
    if k == 0 then 1 else 256 * Pow256(k - 1)
  }

  /** The k low bytes of n, most significant first. */
  function BigEndian(n: nat, k: nat): (r: seq<byte>)
    ensures |r| == k
  {
    if k == 0 then [] else BigEndian(n / 256, k - 1) + [n % 256]
  }

  /** The number that bytes stand for, most significant first. */
  function Value(data: seq<byte>): nat {
    if data == [] then 0 else 256 * Value(data[..|data| - 1]) + data[|data| - 1]
  }

  lemma ValueAppend(data: seq<byte>, b: byte)
    ensures Value(data + [b]) == 256 * Value(data) + b
  {
    assert (data + [b])[..|data|] == data;
  }

  lemma MultipleOf256(p: nat, q: nat)
    ensures (256 * p) * q == 256 * (p * q)
  {
  }

  /** Unpacking gives back the number, reduced to what k bytes can hold. */
  lemma {:induction false} UnpackPacked(n: nat, k: nat) returns (q: nat)
    ensures n == Pow256(k) * q + Value(BigEndian(n, k)) && Value(BigEndian(n, k)) < Pow256(k)
    decreases k
  {
    if k == 0 {
      q := n;
    } else {
      q := UnpackPacked(n / 256, k - 1);
      ValueAppend(BigEndian(n / 256, k - 1), n % 256);
      MultipleOf256(Pow256(k - 1), q);
      hide Value;
    }
  }

  lemma RemainderOf24(n: nat, q: nat, v: nat)
    requires n == 0x100_0000 * q + v && v < 0x100_0000
    ensures v == n % 0x100_0000
  {
  }

  /** The length field has room for the low 24 bits. */
  lemma UnpackLength(n: u32)
    ensures Value(BigEndian(n, 3)) == n % 0x100_0000
  {
    Pow256Values();
    var q := UnpackPacked(n, 3);
    hide BigEndian, Value, Pow256;
    RemainderOf24(n, q, Value(BigEndian(n, 3)));
  }

  lemma UnpackWord(n: u32)
    ensures Value(BigEndian(n, 4)) == n
  {
    Pow256Values();
    var q := UnpackPacked(n, 4);
    hide BigEndian, Value, Pow256;
  }

  lemma UnpackShort(n: u16)
    ensures Value(BigEndian(n, 2)) == n
  {
    Pow256Values();
    var q := UnpackPacked(n, 2);
    hide BigEndian, Value, Pow256;
  }

  lemma UnpackLong(n: u64)
    ensures Value(BigEndian(n, 8)) == n
  {
    Pow256Values();
    var q := UnpackPacked(n, 8);
    hide BigEndian, Value, Pow256;
  }

  lemma Pow256Values()
    ensures Pow256(2) == 0x1_0000 && Pow256(3) == 0x100_0000 && Pow256(4) == 0x1_0000_0000
    ensures Pow256(8) == 0x1_0000_0000_0000_0000
  {
    assert Pow256(1) == 256 && Pow256(2) == 0x1_0000;
    assert Pow256(4) == 0x1_0000_0000 && Pow256(6) == 0x1_0000_0000_0000;
  }

  /** Dropping the first byte of a packed number drops its highest byte. */
  lemma {:induction false} DropHighByte(n: nat, k: nat)
    ensures BigEndian(n, k + 1)[1..] == BigEndian(n, k)
    decreases k
  {
    if k > 0 {
      DropHighByte(n / 256, k - 1);
      assert BigEndian(n, k + 1)[1..] == BigEndian(n / 256, k)[1..] + [n % 256];
    }
  }

  // ---------------------------------------------------------------- uint32_ignoreFirstBit

  function LastFour(data: seq<byte>): seq<byte> {
    if |data| <= 4 then data else data[|data| - 4..]
  }

  /** The big-endian value of the last four bytes, without the reserved bit. */
  function IgnoreFirstBit(data: seq<byte>): (r: u32)
    ensures r < UINT31
  {
    Value(LastFour(data)) % UINT31
  }

  lemma ValueOfFour(b: seq<byte>)
    requires |b| == 4
    ensures Value(b) == b[0] as int * 0x100_0000 + b[1] as int * 0x1_0000 + b[2] as int * 0x100 + b[3] as int
  {
    assert Value(b) == 256 * Value(b[..3]) + b[3];
    assert b[..3][..2] == b[..2] && b[..2][..1] == b[..1] && b[..1][..0] == [];
    assert Value(b[..3]) == 256 * Value(b[..2]) + b[2] && Value(b[..2]) == 256 * Value(b[..1]) + b[1];
    assert Value(b[..1]) == 256 * Value([]) + b[0];
  }

  function Zeros(n: nat): (r: seq<byte>)
    ensures |r| == n
  {
    seq(n, _ => 0)
  }

  lemma {:induction false} LeadingZeros(n: nat, data: seq<byte>)
    ensures Value(Zeros(n) + data) == Value(data)
    decreases n + |data|
  {
    if data != [] {
      var init, last := data[..|data| - 1], data[|data| - 1];
      LeadingZeros(n, init);
      assert Zeros(n) + data == (Zeros(n) + init) + [last];
      ValueAppend(Zeros(n) + init, last);
    } else if n > 0 {
      LeadingZeros(n - 1, []);
      assert Zeros(n) + [] == (Zeros(n - 1) + []) + [0];
      ValueAppend(Zeros(n - 1) + [], 0);
    }
  }

  lemma FirstBitCleared(b: seq<byte>)
    requires |b| == 4
    ensures Value(b[0 := b[0] % 128]) == Value(b) % UINT31
  {
    ValueOfFour(b);
    ValueOfFour(b[0 := b[0] % 128]);
    hide Value;
  }

  /** The loop fills a zeroed buffer from its end, masks the first byte and reads the buffer as one number. */
  method Uint32IgnoreFirstBit(data: seq<byte>) returns (r: u32)
    ensures r == IgnoreFirstBit(data)
  {
    var buffer: array<byte> := new byte[4](_ => 0);
    var i := 0;
    while i < 4 && i < |data|
      invariant 0 <= i <= 4 && i <= |data|
      invariant forall k :: 0 <= k < 4 - i ==> buffer[k] == 0
      invariant forall k :: 4 - i <= k < 4 ==> buffer[k] == data[|data| - 4 + k]
    {
      buffer[buffer.Length - (1 + i)] := data[|data| - (1 + i)];
      i := i + 1;
    }
    ghost var filled := buffer[..];
    assert filled == Zeros(4 - i) + LastFour(data);
    LeadingZeros(4 - i, LastFour(data));
    FirstBitCleared(filled);
    hide Value, Zeros, LastFour;
    buffer[0] := ClearFirstBit(buffer[0]);
    assert buffer[..] == filled[0 := filled[0] % 128];
    r := Uint32(buffer[..]);
  }

  /** binary.BigEndian.Uint32 */
  function Uint32(b: seq<byte>): (r: u32)
    requires |b| == 4
    ensures r == Value(b)
  {
    ValueOfFour(b);
    b[0] as int * 0x100_0000 + b[1] as int * 0x1_0000 + b[2] as int * 0x100 + b[3] as int
  }
}
