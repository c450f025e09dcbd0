/** Bytes, fixed-width integers in little-endian order, 512-byte blocks and the
    two ways a block is changed: a memory copy and a torn device write. */
module Bytes {
  type u8 = x: int | 0 <= x < 0x100
  type u16 = x: int | 0 <= x < 0x1_0000
  type u32 = x: int | 0 <= x < 0x1_0000_0000
  type byte = u8

  const MAX32: u32 := 0xFFFF_FFFF
  const BLOCK_SIZE := 512

  type Block = b: seq<byte> | |b| == 512 witness seq(512, i => 0)

  function Zeros(n: nat): (z: seq<byte>)
    ensures |z| == n
  {
    seq(n, i => 0)
  }

  const ZERO_BLOCK: Block := Zeros(512)

  function U16At(b: seq<byte>, i: nat): u16
    requires i + 2 <= |b|
  {
    b[i] as int + 0x100 * b[i + 1] as int
  }

  function U32At(b: seq<byte>, i: nat): u32
    requires i + 4 <= |b|
  {
    b[i] as int + 0x100 * b[i + 1] as int + 0x1_0000 * b[i + 2] as int + 0x100_0000 * b[i + 3] as int
  }

  function U16Bytes(n: u16): (b: seq<byte>)
    ensures |b| == 2 && U16At(b, 0) == n
  {
    [n % 0x100, n / 0x100]
  }

  function U32Bytes(n: u32): (b: seq<byte>)
    ensures |b| == 4 && U32At(b, 0) == n
  {
    assert n / 0x100 == 0x100 * (n / 0x1_0000) + n / 0x100 % 0x100;
    assert n / 0x1_0000 == 0x100 * (n / 0x100_0000) + n / 0x1_0000 % 0x100;
    [n % 0x100, n / 0x100 % 0x100, n / 0x1_0000 % 0x100, n / 0x100_0000]
  }

  /** Words are stored lowest byte first. */
  lemma LowestFirst(b: seq<byte>, i: nat, n: u16, m: u32)
    requires i + 4 <= |b|
    ensures U16Bytes(n) == [n % 256, n / 256]
    ensures U32Bytes(m) == [m % 256, m / 256 % 256, m / 65536 % 256, m / 16777216]
    ensures U16At(b, i) == b[i] as int + 256 * b[i + 1] as int
    ensures U32At(b, i) == U16At(b, i) + 65536 * U16At(b, i + 2)
  {
  }

  /** `memcpy(buffer + offset, data, |data|)`. */
  function Splice(buffer: seq<byte>, offset: nat, data: seq<byte>): (r: seq<byte>)
    requires offset + |data| <= |buffer|
    ensures |r| == |buffer|
    ensures r[offset..offset + |data|] == data
    ensures forall i :: 0 <= i < |buffer| && !(offset <= i < offset + |data|) ==> r[i] == buffer[i]
  {
    buffer[..offset] + data + buffer[offset + |data|..]
  }

  /** What a failed write may leave behind: every byte is the old one or the new one. */
  function Mix(old_: Block, new_: Block, mask: seq<bool>): (r: Block)
    ensures forall i :: 0 <= i < 512 ==> r[i] == old_[i] || r[i] == new_[i]
  {
    seq(512, i requires 0 <= i < 512 => if i < |mask| && mask[i] then new_[i] else old_[i])
  }

  /** A torn write cannot disturb a range on which old and new agree. */
  lemma MixKeeps(old_: Block, new_: Block, mask: seq<bool>, lo: nat, hi: nat)
    requires lo <= hi <= 512 && old_[lo..hi] == new_[lo..hi]
    ensures Mix(old_, new_, mask)[lo..hi] == old_[lo..hi]
  {
    forall i | lo <= i < hi
      ensures Mix(old_, new_, mask)[i] == old_[i]
    {
      assert old_[lo..hi][i - lo] == new_[lo..hi][i - lo];
    }
  }

  lemma Reassociate<T>(a: seq<T>, b: seq<T>, c: seq<T>)
    ensures (a + b) + c == a + (b + c)
  {
  }

  function Inc16(n: u16): u16 { (n + 1) % 0x1_0000 }

  function Inc32(n: u32): u32 { (n + 1) % 0x1_0000_0000 }
}
