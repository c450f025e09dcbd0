/** The filesystem header: its packed layout, its checksum and the two slots of block 0. */
module Header {
  import opened Bytes
  import opened Crc

  const FIRST_BLOCK: u32 := 8000
  const FILE_SIZE := 30
  const HEADER_SIZE := 137
  const HEADER_SEED: u16 := 31337

  type Name = n: seq<byte> | |n| == 12 witness Zeros(12)

  datatype FileHeader = FileHeader(
    name: Name, version: u16, startBlock: u32, startOffset: u16, endBlock: u32, endOffset: u16, size: u32)

  const EMPTY_FILE := FileHeader(Zeros(12), 0, 0, 0, 0, 0, 0)

  type Files = s: seq<FileHeader> | |s| == 4 witness [EMPTY_FILE, EMPTY_FILE, EMPTY_FILE, EMPTY_FILE]

  datatype Header = Header(
    version: u8, generation: u32, block: u32, offset: u16, time: u32, files: Files, crc: u16)

  const EMPTY_HEADER := Header(0, 0, 0, 0, 0, [EMPTY_FILE, EMPTY_FILE, EMPTY_FILE, EMPTY_FILE], 0)

  /** Which of the two header slots. */
  type SlotIndex = i: nat | i < 2

  // ----- packed layout -----

  function FileBytes(f: FileHeader): (b: seq<byte>)
    ensures |b| == FILE_SIZE
  {
    f.name + U16Bytes(f.version) + U32Bytes(f.startBlock) + U16Bytes(f.startOffset)
    + U32Bytes(f.endBlock) + U16Bytes(f.endOffset) + U32Bytes(f.size)
  }

  function FileFrom(b: seq<byte>): FileHeader
    requires |b| == FILE_SIZE
  {
    FileHeader(b[..12], U16At(b, 12), U32At(b, 14), U16At(b, 18), U32At(b, 20), U16At(b, 24), U32At(b, 26))
  }

  function FixedBytes(h: Header): (b: seq<byte>)
    ensures |b| == 15
  {
    [h.version] + U32Bytes(h.generation) + U32Bytes(h.block) + U16Bytes(h.offset) + U32Bytes(h.time)
  }

  /** Everything before the checksum field. */
  function HeaderBody(h: Header): (b: seq<byte>)
    ensures |b| == HEADER_SIZE - 2
  {
    FixedBytes(h) + FileBytes(h.files[0]) + FileBytes(h.files[1]) + FileBytes(h.files[2]) + FileBytes(h.files[3])
  }

  function HeaderBytes(h: Header): (b: seq<byte>)
    ensures |b| == HEADER_SIZE
  {
    HeaderBody(h) + U16Bytes(h.crc)
  }

  function HeaderFrom(b: seq<byte>): Header
    requires |b| == HEADER_SIZE
  {
    Header(b[0], U32At(b, 1), U32At(b, 5), U16At(b, 9), U32At(b, 11),
           [FileFrom(b[15..45]), FileFrom(b[45..75]), FileFrom(b[75..105]), FileFrom(b[105..135])],
           U16At(b, 135))
  }

  lemma U16Within(a: seq<byte>, n: u16, c: seq<byte>)
    ensures U16At(a + U16Bytes(n) + c, |a|) == n
  {
  }

  lemma U32Within(a: seq<byte>, n: u32, c: seq<byte>)
    ensures U32At(a + U32Bytes(n) + c, |a|) == n
  {
    var s, t := a + U32Bytes(n) + c, U32Bytes(n);
    assert s[|a|] == t[0] && s[|a| + 1] == t[1] && s[|a| + 2] == t[2] && s[|a| + 3] == t[3];
  }

  lemma FileRoundTrip(f: FileHeader)
    ensures FileFrom(FileBytes(f)) == f
  {
    hide U16At, U32At, U16Bytes, U32Bytes;
    var b := FileBytes(f);
    var v, s, o, e, p, z := U16Bytes(f.version), U32Bytes(f.startBlock), U16Bytes(f.startOffset),
                            U32Bytes(f.endBlock), U16Bytes(f.endOffset), U32Bytes(f.size);
    assert b[..12] == f.name;
    assert U16At(b, 12) == f.version by {
      U16Within(f.name, f.version, s + o + e + p + z);
      assert b == f.name + v + (s + o + e + p + z);
    }
    assert U32At(b, 14) == f.startBlock by {
      U32Within(f.name + v, f.startBlock, o + e + p + z);
      assert b == f.name + v + s + (o + e + p + z);
    }
    assert U16At(b, 18) == f.startOffset by {
      U16Within(f.name + v + s, f.startOffset, e + p + z);
      assert b == f.name + v + s + o + (e + p + z);
    }
    assert U32At(b, 20) == f.endBlock by {
      U32Within(f.name + v + s + o, f.endBlock, p + z);
      assert b == f.name + v + s + o + e + (p + z);
    }
    assert U16At(b, 24) == f.endOffset by {
      U16Within(f.name + v + s + o + e, f.endOffset, z);
    }
    assert U32At(b, 26) == f.size by {
      U32Within(f.name + v + s + o + e + p, f.size, []);
      assert b == f.name + v + s + o + e + p + z + [];
    }
  }

  lemma FixedRoundTrip(h: Header, rest: seq<byte>)
    ensures var b := FixedBytes(h) + rest;
            b[0] == h.version && U32At(b, 1) == h.generation && U32At(b, 5) == h.block
            && U16At(b, 9) == h.offset && U32At(b, 11) == h.time
  {
    hide U16At, U32At, U16Bytes, U32Bytes;
    var b := FixedBytes(h) + rest;
    var v, g, k, o, t := [h.version], U32Bytes(h.generation), U32Bytes(h.block), U16Bytes(h.offset), U32Bytes(h.time);
    assert U32At(b, 1) == h.generation by {
      U32Within(v, h.generation, k + o + t + rest);
      assert b == v + g + (k + o + t + rest);
    }
    assert U32At(b, 5) == h.block by {
      U32Within(v + g, h.block, o + t + rest);
      assert b == v + g + k + (o + t + rest);
    }
    assert U16At(b, 9) == h.offset by {
      U16Within(v + g + k, h.offset, t + rest);
      assert b == v + g + k + o + (t + rest);
    }
    assert U32At(b, 11) == h.time by {
      U32Within(v + g + k + o, h.time, rest);
    }
  }

  /** A header survives packing. */
  lemma HeaderRoundTrip(h: Header)
    ensures HeaderFrom(HeaderBytes(h)) == h
  {
    hide FileFrom, FileBytes, FixedBytes, U16Bytes, U32At;
    var b := HeaderBytes(h);
    var f0, f1, f2, f3 := FileBytes(h.files[0]), FileBytes(h.files[1]), FileBytes(h.files[2]), FileBytes(h.files[3]);
    FixedRoundTrip(h, f0 + f1 + f2 + f3 + U16Bytes(h.crc));
    assert b == FixedBytes(h) + (f0 + f1 + f2 + f3 + U16Bytes(h.crc));
    assert b[15..45] == f0 && b[45..75] == f1 && b[75..105] == f2 && b[105..135] == f3;
    FileRoundTrip(h.files[0]);
    FileRoundTrip(h.files[1]);
    FileRoundTrip(h.files[2]);
    FileRoundTrip(h.files[3]);
    U16Within(HeaderBody(h), h.crc, []);
    assert b == HeaderBody(h) + U16Bytes(h.crc) + [];
  }

  /** Where the fields of the header, and of its file `k`, lie. */
  lemma HeaderLayout(h: Header, k: nat)
    requires k < 4
    ensures var b := HeaderBytes(h);
            && |b| == 137 && b[0] == h.version && U32At(b, 1) == h.generation && U32At(b, 5) == h.block
            && U16At(b, 9) == h.offset && U32At(b, 11) == h.time && U16At(b, 135) == h.crc
            && var f, at := h.files[k], 15 + 30 * k;
            && b[at..at + 12] == f.name && U16At(b, at + 12) == f.version
            && U32At(b, at + 14) == f.startBlock && U16At(b, at + 18) == f.startOffset
            && U32At(b, at + 20) == f.endBlock && U16At(b, at + 24) == f.endOffset && U32At(b, at + 26) == f.size
  {
    HeaderRoundTrip(h);
    hide HeaderBytes;
    var b, at := HeaderBytes(h), 15 + 30 * k;
    var c := b[at..at + 30];
    assert FileFrom(c) == h.files[k];
    assert c[..12] == b[at..at + 12];
    hide U16At, U32At;
    FieldWithin(b, at, 12);
    FieldWithin(b, at, 14);
    FieldWithin(b, at, 18);
    FieldWithin(b, at, 20);
    FieldWithin(b, at, 24);
    FieldWithin(b, at, 26);
  }

  lemma FieldWithin(b: seq<byte>, at: nat, i: nat)
    requires at + 30 <= |b| && i + 4 <= 30
    ensures U16At(b[at..at + 30], i) == U16At(b, at + i) && U32At(b[at..at + 30], i) == U32At(b, at + i)
  {
  }

  // ----- checksum and slots -----

  predicate SlotValid(b: seq<byte>)
    requires |b| == HEADER_SIZE
  {
    U16At(b, 135) == Crc16(HEADER_SEED, b[..135])
  }

  /** A slot passes if its last two bytes are the CRC of the others from 31337 on. */
  lemma SlotSum(b: seq<byte>)
    requires |b| == 137
    ensures SlotValid(b) <==> b[135] as int + 256 * b[136] as int == BitCrc(31337, b[..135])
  {
    hide Crc16, BitCrc;
    TableLoopIsBitwise(31337, b[..135]);
  }

  /** `fkfs_header_crc_update`. */
  function Seal(h: Header): Header {
    h.(crc := Crc16(HEADER_SEED, HeaderBody(h)))
  }

  lemma SealedIsValid(h: Header)
    ensures SlotValid(HeaderBytes(Seal(h)))
  {
    hide Crc16, FileBytes, U16Bytes;
    var s := Seal(h);
    assert HeaderBody(s) == HeaderBody(h);
    assert HeaderBytes(s)[..135] == HeaderBody(s);
    U16Within(HeaderBody(s), s.crc, []);
    assert HeaderBytes(s) == HeaderBody(s) + U16Bytes(s.crc) + [];
  }

  /** An all-zero slot never passes, so a blank card is always recognised as new. */
  lemma ZeroSlotInvalid()
    ensures !SlotValid(Zeros(137))
  {
    hide Crc16;
    ZeroesNeverPass(HEADER_SEED, 135);
    assert Zeros(137)[..135] == Zeros(135);
  }

  function Slot(b: Block, i: nat): (s: seq<byte>)
    requires i < 2
    ensures |s| == HEADER_SIZE
  {
    b[i * HEADER_SIZE..(i + 1) * HEADER_SIZE]
  }

  /** Which slot `fkfs_initialize` trusts, if any. */
  function Newest(b: Block): (r: nat)
    ensures r <= 2
    ensures r < 2 ==> SlotValid(Slot(b, r))
    ensures r == 2 <==> !SlotValid(Slot(b, 0)) && !SlotValid(Slot(b, 1))
  {
    if !SlotValid(Slot(b, 0)) && !SlotValid(Slot(b, 1)) then 2
    else if !SlotValid(Slot(b, 1)) then 0
    else if !SlotValid(Slot(b, 0)) then 1
    else if HeaderFrom(Slot(b, 0)).generation > HeaderFrom(Slot(b, 1)).generation then 0
    else 1
  }

  /** Writing one slot leaves the other byte-identical. */
  lemma SlotWrite(b: Block, i: nat, data: seq<byte>)
    requires i < 2 && |data| == HEADER_SIZE
    ensures Slot(Splice(b, i * HEADER_SIZE, data), i) == data
    ensures Slot(Splice(b, i * HEADER_SIZE, data), 1 - i) == Slot(b, 1 - i)
  {
    hide Splice;
    var c: Block := Splice(b, i * HEADER_SIZE, data);
    if i == 0 {
      assert c[137..274] == b[137..274];
    } else {
      assert c[..137] == b[..137];
    }
  }

  function Versions(h: Header): (v: seq<u16>)
    ensures |v| == 4
  {
    [h.files[0].version, h.files[1].version, h.files[2].version, h.files[3].version]
  }
}
