/** Entries: the packed header in front of every payload, the check that decides
    whether one is live, and why bumping a file's version kills its entries. */
module Entry {
  import opened Bytes
  import opened Crc

  const ENTRY_SIZE := 7
  const MAX_PAYLOAD := 505

  datatype Entry = Entry(file: u8, size: u16, available: u16, crc: u16)

  datatype Status = Good | Size | Crc | Priority | Eob

  function EntryAt(b: seq<byte>, off: nat): Entry
    requires off + ENTRY_SIZE <= |b|
  {
    Entry(b[off], U16At(b, off + 1), U16At(b, off + 3), U16At(b, off + 5))
  }

  /** The five bytes covered by the checksum. */
  function EntryHead(e: Entry): (b: seq<byte>)
    ensures |b| == 5
  {
    [e.file] + U16Bytes(e.size) + U16Bytes(e.available)
  }

  function EntryBytes(e: Entry): (b: seq<byte>)
    ensures |b| == ENTRY_SIZE
  {
    EntryHead(e) + U16Bytes(e.crc)
  }

  /** `fkfs_block_crc`: the file's version is the start value. */
  function BlockCrc(version: u16, head: seq<byte>, data: seq<byte>): u16 {
    Crc16(Crc16(version, head), data)
  }

  /** `fkfs_block_check`. An entry header that is not wholly inside the block
      ends the block, and one whose payload would run past it is not live. */
  function Check(versions: seq<u16>, b: Block, off: nat): (s: Status)
    requires |versions| == 4
    ensures s.Good? || s.Size? || s.Crc?
    ensures !s.Size? ==> off + ENTRY_SIZE <= 512 && EntryAt(b, off).file < 4
                         && 0 < EntryAt(b, off).size < 512 && 0 < EntryAt(b, off).available < 512
    ensures s.Good? ==> off + ENTRY_SIZE + EntryAt(b, off).size <= 512
  {
    if off + ENTRY_SIZE > 512 then Size
    else
      var e := EntryAt(b, off);
      if e.file >= 4 then Size
      else if e.size == 0 || e.size >= 512 || e.available == 0 || e.available >= 512 then Size
      else if off + ENTRY_SIZE + e.size > 512 then Crc
      else if e.crc != BlockCrc(versions[e.file], b[off..off + 5], b[off + 7..off + 7 + e.size]) then Crc
      else Good
  }

  /** The space an entry takes in its block's chain. */
  function Occupied(b: Block, off: nat): nat
    requires off + ENTRY_SIZE <= 512
  {
    ENTRY_SIZE + EntryAt(b, off).available
  }

  // ----- records: what an append puts on the card -----

  datatype RawRec = Rec(file: nat, version: u16, data: seq<byte>)

  type Rec = r: RawRec | r.file < 4 && 1 <= |r.data| <= MAX_PAYLOAD witness Rec(0, 0, [0])

  function RecEntry(r: Rec): Entry {
    var e := Entry(r.file, |r.data|, |r.data|, 0);
    e.(crc := BlockCrc(r.version, EntryHead(e), r.data))
  }

  function RecBytes(r: Rec): (b: seq<byte>)
    ensures |b| == ENTRY_SIZE + |r.data|
  {
    EntryBytes(RecEntry(r)) + r.data
  }

  /** Does `b` carry the bytes of `r` at `off`? */
  predicate Carries(b: Block, off: nat, r: Rec) {
    off + ENTRY_SIZE + |r.data| <= 512 && b[off..off + ENTRY_SIZE + |r.data|] == RecBytes(r)
  }

  lemma EntryRoundTrip(e: Entry)
    ensures EntryAt(EntryBytes(e), 0) == e
  {
    hide U16Bytes;
    var b := EntryBytes(e);
    assert U16At(b, 1) == U16At(U16Bytes(e.size), 0);
    assert U16At(b, 3) == U16At(U16Bytes(e.available), 0);
    assert U16At(b, 5) == U16At(U16Bytes(e.crc), 0);
  }

  /** Reading back what was written: the header, its checksummed bytes and the payload. */
  lemma CarriedParts(b: Block, off: nat, r: Rec)
    requires Carries(b, off, r)
    ensures EntryAt(b, off) == RecEntry(r)
    ensures b[off..off + 5] == EntryHead(RecEntry(r))
    ensures b[off + 7..off + 7 + |r.data|] == r.data
  {
    hide U16Bytes, BlockCrc;
    var e := RecEntry(r);
    var w := RecBytes(r);
    EntryRoundTrip(e);
    forall i | 0 <= i < |w|
      ensures b[off + i] == w[i]
    {
      assert b[off..off + ENTRY_SIZE + |r.data|][i] == w[i];
    }
    assert forall i :: 0 <= i < 7 ==> w[i] == EntryBytes(e)[i];
    assert EntryAt(b, off) == EntryAt(EntryBytes(e), 0);
    assert w[..5] == EntryHead(e);
    assert w[7..] == r.data;
  }

  /** An entry written under one version passes the check under a file's
      current version if and only if the two are equal; otherwise it is still
      stepped over by exactly its own length. */
  lemma TruncationIsExact(versions: seq<u16>, b: Block, off: nat, r: Rec)
    requires |versions| == 4 && Carries(b, off, r)
    ensures Check(versions, b, off) == if versions[r.file] == r.version then Good else Crc
    ensures EntryAt(b, off).file == r.file && EntryAt(b, off).size == |r.data|
    ensures Occupied(b, off) == |RecBytes(r)|
    ensures b[off + 7..off + 7 + |r.data|] == r.data
  {
    hide U16Bytes, U16At, Crc16;
    CarriedParts(b, off, r);
    var head := EntryHead(RecEntry(r));
    assert head == EntryHead(RecEntry(r).(crc := 0));
    if BlockCrc(versions[r.file], head, r.data) == BlockCrc(r.version, head, r.data) {
      StartInjective(Crc16(versions[r.file], head), Crc16(r.version, head), r.data);
      StartInjective(versions[r.file], r.version, head);
    }
  }

  /** Zero bytes end a chain, whatever the versions. */
  lemma ZeroEndsChain(versions: seq<u16>, b: Block, off: nat)
    requires |versions| == 4 && off <= 512
    requires forall i :: off <= i < 512 ==> b[i] == 0
    ensures Check(versions, b, off) == Size
  {
  }

  lemma PayloadDamage(version: u16, head: seq<byte>, p: seq<byte>, k: nat, x: byte)
    requires k < |p| && x != p[k]
    ensures BlockCrc(version, head, p[k := x]) != BlockCrc(version, head, p)
  {
    hide Crc16;
    assert p == p[..k] + [p[k]] + p[k + 1..] && p[k := x] == p[..k] + [x] + p[k + 1..];
    OneByteChanges(Crc16(version, head), p[..k], p[k], x, p[k + 1..]);
  }

  lemma DamagedEntry(b: Block, off: nat, i: nat, x: byte)
    requires off + ENTRY_SIZE <= 512 && off + 5 <= i < 512 && x != b[i]
    ensures var e := EntryAt(b, off);
            EntryAt(b[i := x], off) == e.(crc := EntryAt(b[i := x], off).crc)
            && (i < off + ENTRY_SIZE <==> EntryAt(b[i := x], off).crc != e.crc)
  {
  }

  /** A live entry of which one byte of payload or checksum is changed is live no longer. */
  lemma DamageIsSeen(versions: seq<u16>, b: Block, off: nat, i: nat, x: byte)
    requires |versions| == 4 && Check(versions, b, off).Good?
    requires off + 5 <= i < off + ENTRY_SIZE + EntryAt(b, off).size && x != b[i]
    ensures Check(versions, b[i := x], off) == Status.Crc
  {
    hide EntryAt, Check;
    DamagedEntry(b, off, i, x);
    DamagedBytes(b, off, EntryAt(b, off).size, i, x);
    SumNoLongerFits(versions, b, b[i := x], off, i, x);
  }

  lemma SumNoLongerFits(versions: seq<u16>, b: Block, c: Block, off: nat, i: nat, x: byte)
    requires |versions| == 4 && Check(versions, b, off).Good?
    requires off + 5 <= i < off + ENTRY_SIZE + EntryAt(b, off).size && x != b[i]
    requires EntryAt(c, off) == EntryAt(b, off).(crc := EntryAt(c, off).crc)
    requires i < off + ENTRY_SIZE <==> EntryAt(c, off).crc != EntryAt(b, off).crc
    requires c[off..off + 5] == b[off..off + 5]
    requires var p := b[off + 7..off + 7 + EntryAt(b, off).size];
             c[off + 7..off + 7 + EntryAt(b, off).size] == if i >= off + 7 then p[i - off - 7 := x] else p
    ensures Check(versions, c, off) == Status.Crc
  {
    hide EntryAt, Check, BlockCrc;
    var e := EntryAt(b, off);
    SumDecides(versions, b, off);
    SumDecides(versions, c, off);
    if i >= off + 7 {
      PayloadDamage(versions[e.file], b[off..off + 5], b[off + 7..off + 7 + e.size], i - off - 7, x);
    }
  }

  /** Between the limits on its fields the checksum decides about an entry. */
  lemma SumDecides(versions: seq<u16>, b: Block, off: nat)
    requires |versions| == 4 && off + ENTRY_SIZE <= 512
    ensures var e := EntryAt(b, off);
            e.file < 4 && 0 < e.size < 512 && 0 < e.available < 512 && off + ENTRY_SIZE + e.size <= 512 ==>
              Check(versions, b, off)
              == if e.crc == BlockCrc(versions[e.file], b[off..off + 5], b[off + 7..off + 7 + e.size]) then Good
                  else Status.Crc
  {
    hide EntryAt, BlockCrc;
  }

  lemma DamagedBytes(b: Block, off: nat, n: nat, i: nat, x: byte)
    requires off + 7 + n <= 512 && off + 5 <= i < off + 7 + n
    ensures var c, p := b[i := x], b[off + 7..off + 7 + n];
            && c[off..off + 5] == b[off..off + 5]
            && c[off + 7..off + 7 + n] == if i >= off + 7 then p[i - off - 7 := x] else p
  {
  }

  // ----- the bytes -----

  /** The bytes of an entry as they lie on the card, lowest byte first. */
  lemma EntryLayout(r: Rec)
    ensures var b, n := RecBytes(r), |r.data|;
            && b[0] == r.file && b[1] == n % 256 && b[2] == n / 256 && b[3] == n % 256 && b[4] == n / 256
            && b[5] == RecEntry(r).crc % 256 && b[6] == RecEntry(r).crc / 256 && b[7..] == r.data
    ensures RecEntry(r).crc == BitCrc(r.version, RecBytes(r)[..5] + r.data)
  {
    hide Crc16, BitCrc;
    var b := RecBytes(r);
    assert b[..5] == EntryHead(RecEntry(r)) == EntryHead(RecEntry(r).(crc := 0));
    Concatenates(r.version, b[..5], r.data);
    TableLoopIsBitwise(r.version, b[..5] + r.data);
  }

  /** The check, on the bytes of a block. An entry ends its block if its header
      is not inside, its file is not one of four, or its size or the space it
      occupies is 0 or a block and more; otherwise its checksum decides. */
  lemma CheckDecides(versions: seq<u16>, b: Block, off: nat)
    requires |versions| == 4
    ensures off > 505 ==> Check(versions, b, off) == Size
    ensures off <= 505 ==>
              var size, available := U16At(b, off + 1), U16At(b, off + 3);
              Check(versions, b, off)
              == if b[off] > 3 || size == 0 || size > 511 || available == 0 || available > 511 then Size
                 else if off + 7 + size <= 512
                         && U16At(b, off + 5)
                            == BitCrc(versions[b[off]], b[off..off + 5] + b[off + 7..off + 7 + size]) then Good
                 else Status.Crc
  {
    hide Crc16, BitCrc;
    if off <= 505 {
      var e := EntryAt(b, off);
      if e.file < 4 && off + 7 + e.size <= 512 {
        var head, data := b[off..off + 5], b[off + 7..off + 7 + e.size];
        Concatenates(versions[e.file], head, data);
        TableLoopIsBitwise(versions[e.file], head + data);
      }
    }
  }
}
