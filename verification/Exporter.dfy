/** The offline reader of `src/read.go`, a second implementation over a card
    image, and its agreement with the iterator. */
module Exporter {
  import opened Bytes
  import opened Crc
  import opened Header
  import opened Entry
  import opened Card
  import Fs
  import opened Cache
  import opened HeaderProtocol
  import opened Layout
  import opened Scan
  import opened ScanLog
  import opened Journal
  import opened LiveVolume
  import opened Trimming

  const MAX_ENTRY := 505

  datatype Cursor = Cursor(block: u32, offset: u16)

  /** `ReadBlock` either panics, or skips to the next cursor, or yields an entry. */
  datatype Outcome = Panic | Skip(next: Cursor) | Take(file: u8, data: seq<byte>, next: Cursor)

  /** `ReadHeader`: the greater generation wins, checksums are not looked at. */
  function ReadHeader(image: seq<byte>): Header
    requires |image| >= 2 * HEADER_SIZE
  {
    var h0, h1 := HeaderFrom(image[..HEADER_SIZE]), HeaderFrom(image[HEADER_SIZE..2 * HEADER_SIZE]);
    if h0.generation > h1.generation then h0 else h1
  }

  /** `BlockChecksum`. */
  function BlockChecksum(version: u16, e: Entry, data: seq<byte>): u16 {
    Crc16(Crc16(version, EntryBytes(e)[..5]), data)
  }

  /** The byte position of a cursor, computed in 32 bits. */
  function Position(c: Cursor): nat {
    (c.block * 512 + c.offset) % 0x1_0000_0000
  }

  function NextBlock(c: Cursor): Cursor {
    Cursor(Inc32(c.block), 0)
  }

  /** Up to `n` bytes at `p`; what the file does not have stays zero. */
  function Padded(image: seq<byte>, p: nat, n: nat): (d: seq<byte>)
    requires p <= |image|
    ensures |d| == n && forall i :: 0 <= i < n ==> d[i] == if p + i < |image| then image[p + i] else 0
  {
    if p + n <= |image| then image[p..p + n] else image[p..] + Zeros(n - (|image| - p))
  }

  function ReadBlock(h: Header, c: Cursor, image: seq<byte>): (r: Outcome)
    ensures r.Take? ==> r.file < 4
  {
    var p := Position(c);
    if p + ENTRY_SIZE > |image| then Panic
    else
      var e := EntryAt(image, p);
      if e.file >= 6 || e.size == 0 || e.size > MAX_ENTRY || e.available == 0 || e.available > MAX_ENTRY then
        Skip(NextBlock(c))
      else if p + ENTRY_SIZE == |image| || e.file >= 4 then Panic
      else
        var data := Padded(image, p + ENTRY_SIZE, e.size);
        if e.crc != BlockChecksum(h.files[e.file].version, e, data) then Skip(NextBlock(c))
        else
          var next := (c.offset + e.size + ENTRY_SIZE) % 0x1_0000;
          Take(e.file, data, if next >= 512 then NextBlock(c) else Cursor(c.block, next))
  }

  /** `ReadBlock`, on the bytes of the image. */
  lemma ReadBlockDecides(h: Header, c: Cursor, image: seq<byte>)
    ensures var p, r := (c.block * 512 + c.offset) % 4294967296, ReadBlock(h, c, image);
            var onward := Skip(Cursor((c.block + 1) % 4294967296, 0));
            if p + 7 > |image| then r == Panic
            else
              var file, size, available := image[p], U16At(image, p + 1), U16At(image, p + 3);
              if file > 5 || size == 0 || size > 505 || available == 0 || available > 505 then r == onward
              else if file > 3 || p + 7 == |image| then r == Panic
              else
                var data := Padded(image, p + 7, size);
                if U16At(image, p + 5) != BitCrc(h.files[file].version, image[p..p + 5] + data) then r == onward
                else r.Take? && r.file == file && r.data == data
                     && r.next == if (c.offset + size + 7) % 65536 >= 512 then onward.next
                                  else Cursor(c.block, (c.offset + size + 7) % 65536)
  {
    hide Crc16, BitCrc;
    var p := Position(c);
    if p + 7 <= |image| {
      var e := EntryAt(image, p);
      HeadOf(image, p);
      if e.file < 4 {
        var v, data := h.files[e.file].version, Padded(image, p + 7, e.size);
        Concatenates(v, image[p..p + 5], data);
        TableLoopIsBitwise(v, image[p..p + 5] + data);
      }
    }
  }

  lemma HeadOf(b: seq<byte>, p: nat)
    requires p + 7 <= |b|
    ensures EntryBytes(EntryAt(b, p))[..5] == b[p..p + 5]
  {
  }

  /** The payloads of each file in the order the loop of `main` writes them. */
  type FourFiles = o: seq<Payloads> | |o| == 4 witness [[], [], [], []]

  const NOTHING: FourFiles := [[], [], [], []]

  datatype Tally = Crashed | Written(out: FourFiles)

  function Prepend(file: nat, data: seq<byte>, e: Tally): Tally
    requires file < 4
  {
    match e
    case Crashed => Crashed
    case Written(out) => Written(out[file := [data] + out[file]])
  }

  lemma ReadBlockProgress(h: Header, c: Cursor, image: seq<byte>)
    requires c.offset < 512 && c.block < MAX32 && !ReadBlock(h, c, image).Panic?
    ensures var next := ReadBlock(h, c, image).next;
            next.offset < 512 && (next == Cursor(c.block + 1, 0) || (next.block == c.block && next.offset > c.offset))
  {
    hide BlockChecksum, EntryAt;
  }

  /** The loop of `main`, from one cursor on. */
  ghost function ExportFrom(h: Header, c: Cursor, image: seq<byte>): Tally
    requires c.offset < 512
    decreases if c.block < h.block then h.block - c.block else 0, 512 - c.offset
  {
    if c.block >= h.block then Written(NOTHING)
    else
      var r := ReadBlock(h, c, image);
      if r.Panic? then Crashed
      else
        ReadBlockProgress(h, c, image);
        var rest := ExportFrom(h, r.next, image);
        if r.Take? then Prepend(r.file, r.data, rest) else rest
  }

  /** The loop of `main`; `done` tells whether it ran to the end. */
  method Export(image: seq<byte>) returns (done: bool, out: FourFiles)
    ensures |image| < 2 * HEADER_SIZE ==> !done
    ensures |image| >= 2 * HEADER_SIZE ==>
              ExportFrom(ReadHeader(image), Cursor(1, 0), image) == if done then Written(out) else Crashed
  {
    hide ReadBlock, ReadHeader;
    if |image| < 2 * HEADER_SIZE {
      return false, NOTHING;
    }
    var h := ReadHeader(image);
    var c := Cursor(1, 0);
    out := NOTHING;
    AfterNothing(ExportFrom(h, c, image));
    while c.block < h.block
      invariant c.offset < 512
      invariant ExportFrom(h, Cursor(1, 0), image) == After(out, ExportFrom(h, c, image))
      decreases if c.block < h.block then h.block - c.block else 0, 512 - c.offset
    {
      var b := ReadBlock(h, c, image);
      if b.Panic? {
        return false, out;
      }
      ReadBlockProgress(h, c, image);
      if b.Take? {
        AfterPrepend(out, b.file, b.data, ExportFrom(h, b.next, image));
        out := out[b.file := out[b.file] + [b.data]];
      }
      c := b.next;
    }
    AfterAll(out);
    done := true;
  }

  /** What has been written, followed by what is still to come. */
  ghost function After(out: FourFiles, e: Tally): Tally {
    match e
    case Crashed => Crashed
    case Written(rest) =>
      Written([out[0] + rest[0], out[1] + rest[1], out[2] + rest[2], out[3] + rest[3]])
  }

  lemma AfterPrepend(out: FourFiles, f: nat, d: seq<byte>, e: Tally)
    requires f < 4
    ensures After(out, Prepend(f, d, e)) == After(out[f := out[f] + [d]], e)
  {
    if e.Written? {
      assert out[f] + ([d] + e.out[f]) == (out[f] + [d]) + e.out[f];
    }
  }

  lemma AfterNothing(e: Tally)
    ensures After(NOTHING, e) == e
  {
    if e.Written? {
      assert forall f :: 0 <= f < 4 ==> [] + e.out[f] == e.out[f];
    }
  }

  lemma AfterAll(out: FourFiles)
    ensures After(out, Written(NOTHING)) == Written(out)
  {
    assert forall f :: 0 <= f < 4 ==> out[f] + [] == out[f];
  }

  // ----- agreement -----

  /** The card as one run of bytes. */
  ghost function Image(blocks: Blocks): (image: seq<byte>)
    ensures |image| == 512 * |blocks|
  {
    seq(512 * |blocks|, p requires 0 <= p < 512 * |blocks| => blocks[p / 512][p % 512])
  }

  lemma ImageSlice(blocks: Blocks, b: nat, lo: nat, hi: nat)
    requires b < |blocks| && lo <= hi <= 512
    ensures 512 * b + hi <= |Image(blocks)| && Image(blocks)[512 * b + lo..512 * b + hi] == blocks[b][lo..hi]
  {
    forall i | lo <= i < hi
      ensures Image(blocks)[512 * b + i] == blocks[b][i]
    {
      assert (512 * b + i) / 512 == b && (512 * b + i) % 512 == i;
    }
  }

  lemma ImageEntry(blocks: Blocks, b: nat, off: nat)
    requires b < |blocks| && off + ENTRY_SIZE <= 512
    ensures 512 * b + off + ENTRY_SIZE <= |Image(blocks)|
    ensures EntryAt(Image(blocks), 512 * b + off) == EntryAt(blocks[b], off)
  {
    hide Image, EntryAt;
    ImageSlice(blocks, b, off, off + ENTRY_SIZE);
    SameEntry(Image(blocks), 512 * b + off, blocks[b], off);
  }

  lemma SameEntry(a: seq<byte>, p: nat, b: seq<byte>, q: nat)
    requires p + ENTRY_SIZE <= |a| && q + ENTRY_SIZE <= |b| && a[p..p + ENTRY_SIZE] == b[q..q + ENTRY_SIZE]
    ensures EntryAt(a, p) == EntryAt(b, q)
  {
    var x, y := a[p..p + ENTRY_SIZE], b[q..q + ENTRY_SIZE];
    assert forall i :: 0 <= i < ENTRY_SIZE ==> a[p + i] == x[i] && b[q + i] == y[i];
  }

  /** On blocks below 2^23 the 32-bit position is the true one. */
  lemma PositionExact(c: Cursor)
    requires c.block < 0x80_0000 && c.offset < 512
    ensures Position(c) == 512 * c.block + c.offset
  {
  }

  lemma ImageByte(blocks: Blocks, b: nat, i: nat)
    requires b < |blocks| && i < 512
    ensures Image(blocks)[512 * b + i] == blocks[b][i]
  {
    ImageSlice(blocks, b, i, i + 1);
    assert Image(blocks)[512 * b + i..512 * b + i + 1][0] == blocks[b][i..i + 1][0];
  }

  /** Zeros are left for the next block as soon as the size field is inside the block. */
  lemma GoSkipsZeros(h: Header, blocks: Blocks, b: nat, off: nat)
    requires b + 1 < |blocks| && b < 0x80_0000 && off <= 509 && forall i :: off <= i < 512 ==> blocks[b][i] == 0
    ensures ReadBlock(h, Cursor(b, off), Image(blocks)) == Skip(Cursor(b + 1, 0))
  {
    hide Image, BlockChecksum;
    ImageByte(blocks, b, off + 1);
    ImageByte(blocks, b, off + 2);
    PositionExact(Cursor(b, off));
  }

  /** At 510 and 511 the size field lies in the next block. Whatever it says,
      the entry counts as one of file 0, and the cursor goes to the next block. */
  lemma GoStraddles(h: Header, blocks: Blocks, b: nat, off: nat)
    requires b + 1 < |blocks| && b < 0x80_0000 && 510 <= off < 512 && forall i :: off <= i < 512 ==> blocks[b][i] == 0
    ensures var r := ReadBlock(h, Cursor(b, off), Image(blocks));
            !r.Panic? && r.next == Cursor(b + 1, 0) && (r.Take? ==> r.file == 0)
  {
    hide Image, BlockChecksum;
    ImageByte(blocks, b, off);
    PositionExact(Cursor(b, off));
  }

  lemma GoTakesRecord(h: Header, blocks: Blocks, b: nat, off: nat, r: Rec)
    requires b < |blocks| && b < 0x80_0000 && Carries(blocks[b], off, r) && h.files[r.file].version == r.version
    ensures var next := off + |RecBytes(r)|;
            ReadBlock(h, Cursor(b, off), Image(blocks))
            == Take(r.file, r.data, if next >= 512 then Cursor(b + 1, 0) else Cursor(b, next))
  {
    hide Image, Crc16, EntryAt, EntryBytes, EntryHead;
    var e := RecEntry(r);
    CarriedParts(blocks[b], off, r);
    ImageEntry(blocks, b, off);
    ImageSlice(blocks, b, off + 7, off + 7 + |r.data|);
    PositionExact(Cursor(b, off));
    HeadOfBytes(e);
    HeadWithoutCrc(e);
  }

  /** At an entry of another version the whole rest of the block is left. */
  lemma GoLeavesStale(h: Header, blocks: Blocks, b: nat, off: nat, r: Rec)
    requires b < |blocks| && b < 0x80_0000 && Carries(blocks[b], off, r) && h.files[r.file].version != r.version
    ensures ReadBlock(h, Cursor(b, off), Image(blocks)) == Skip(Cursor(b + 1, 0))
  {
    hide Image, Crc16, EntryAt, EntryBytes, EntryHead;
    var e := RecEntry(r);
    CarriedParts(blocks[b], off, r);
    ImageEntry(blocks, b, off);
    ImageSlice(blocks, b, off + 7, off + 7 + |r.data|);
    PositionExact(Cursor(b, off));
    HeadOfBytes(e);
    HeadWithoutCrc(e);
    var v, head := h.files[r.file].version, EntryHead(e);
    if Crc16(Crc16(v, head), r.data) == Crc16(Crc16(r.version, head), r.data) {
      StartInjective(Crc16(v, head), Crc16(r.version, head), r.data);
      StartInjective(v, r.version, head);
    }
  }

  lemma HeadOfBytes(e: Entry)
    ensures EntryBytes(e)[..5] == EntryHead(e)
  {
  }

  lemma HeadWithoutCrc(e: Entry)
    ensures EntryHead(e) == EntryHead(e.(crc := 0))
  {
  }

  /** The payloads of records `k..` of one block, per file. */
  ghost function Gather(h: Header, rs: seq<Rec>, b: nat, k: nat): FourFiles
    requires k <= |rs|
  {
    [Data(Pick(rs, b, k, |rs|, 0, h.files[0].version)), Data(Pick(rs, b, k, |rs|, 1, h.files[1].version)),
     Data(Pick(rs, b, k, |rs|, 2, h.files[2].version)), Data(Pick(rs, b, k, |rs|, 3, h.files[3].version))]
  }

  /** No record is of an earlier version: nothing was ever truncated. */
  predicate Untruncated(h: Header, rs: seq<Rec>) {
    forall k :: 0 <= k < |rs| ==> rs[k].version == h.files[rs[k].file].version
  }

  /** How many records of a block, from the `k`-th on, come before the first stale one. */
  function Lead(h: Header, rs: seq<Rec>, k: nat): (n: nat)
    requires k <= |rs|
    ensures k <= n <= |rs| && (forall q :: k <= q < n ==> rs[q].version == h.files[rs[q].file].version)
    ensures n < |rs| ==> rs[n].version != h.files[rs[n].file].version
    decreases |rs| - k
  {
    if k == |rs| || rs[k].version != h.files[rs[k].file].version then k else Lead(h, rs, k + 1)
  }

  /** The records of a block that come before its first stale one. */
  function Shown(h: Header, rs: seq<Rec>): (shown: seq<Rec>)
    ensures |shown| <= |rs| && Untruncated(h, shown)
  {
    rs[..Lead(h, rs, 0)]
  }

  function ShownLog(h: Header, log: Log): (shown: Log)
    ensures |shown| == |log|
  {
    seq(|log|, i requires 0 <= i < |log| => Shown(h, log[i]))
  }

  lemma GatherOne(h: Header, rs: seq<Rec>, b: nat, k: nat, f: nat)
    requires k < |rs| && Untruncated(h, rs) && f < 4
    ensures Data(Pick(rs, b, k, |rs|, f, h.files[f].version))
         == (if rs[k].file == f then [rs[k].data] else []) + Data(Pick(rs, b, k + 1, |rs|, f, h.files[f].version))
  {
    hide Pick, Data, One;
    var v := h.files[f].version;
    PickFront(rs, b, k, |rs|, f, v);
    DataAdds(One(rs, b, k, f, v), Pick(rs, b, k + 1, |rs|, f, v));
    DataOfOne(rs, b, k, f, v);
  }

  lemma GatherFront(h: Header, rs: seq<Rec>, b: nat, k: nat, e: Tally)
    requires k < |rs| && Untruncated(h, rs)
    ensures After(Gather(h, rs, b, k), e) == Prepend(rs[k].file, rs[k].data, After(Gather(h, rs, b, k + 1), e))
  {
    hide Pick, Data;
    GatherOne(h, rs, b, k, 0);
    GatherOne(h, rs, b, k, 1);
    GatherOne(h, rs, b, k, 2);
    GatherOne(h, rs, b, k, 3);
    if e.Written? {
      var g, g' := Gather(h, rs, b, k), Gather(h, rs, b, k + 1);
      var l, r := After(g, e).out, Prepend(rs[k].file, rs[k].data, After(g', e)).out;
      forall f | 0 <= f < 4
        ensures l[f] == r[f]
      {
        assert g[f] == (if rs[k].file == f then [rs[k].data] else []) + g'[f];
        assert l[f] == g[f] + e.out[f];
        if rs[k].file == f {
          assert ([rs[k].data] + g'[f]) + e.out[f] == [rs[k].data] + (g'[f] + e.out[f]);
        } else {
          assert [] + g'[f] == g'[f];
        }
      }
      assert l == r;
    }
  }

  /** What the exporter makes of the zeros behind a chain that ends at 510 or
      511: an entry header read across the block boundary is taken for one of
      file 0 if it passes the checks. */
  ghost function Spill(h: Header, blocks: Blocks, b: nat, rs: seq<Rec>): (p: Payloads)
    requires b <= MAX32
    ensures |p| <= 1
  {
    if 510 <= |Encode(rs)| < 512 && Untruncated(h, rs) then
      var r := ReadBlock(h, Cursor(b, |Encode(rs)|), Image(blocks));
      if r.Take? then [r.data] else []
    else []
  }

  ghost function Spilled(p: Payloads, e: Tally): Tally {
    if |p| == 0 then e else Prepend(0, p[0], e)
  }

  /** Leaving a block at the end of its chain. */
  lemma GoLeaves(h: Header, blocks: Blocks, b: nat, rs: seq<Rec>)
    requires b + 1 < |blocks| && b < 0x80_0000 && b < h.block && Full(blocks[b], rs) && |Encode(rs)| < 512
    requires Untruncated(h, rs)
    ensures ExportFrom(h, Cursor(b, |Encode(rs)|), Image(blocks))
         == Spilled(Spill(h, blocks, b, rs), ExportFrom(h, Cursor(b + 1, 0), Image(blocks)))
  {
    hide ReadBlock, Image, Encode;
    if |Encode(rs)| <= 509 {
      GoSkipsZeros(h, blocks, b, |Encode(rs)|);
    } else {
      GoStraddles(h, blocks, b, |Encode(rs)|);
    }
  }

  /** The exporter walks one full block and collects its records up to the first stale one. */
  lemma {:induction false} GoWalksBlock(h: Header, blocks: Blocks, b: nat, rs: seq<Rec>, k: nat)
    requires b + 1 < |blocks| && b < 0x80_0000 && b < h.block && k <= |Shown(h, rs)|
    requires Full(blocks[b], rs) && Off(rs, k) < 512
    ensures ExportFrom(h, Cursor(b, Off(rs, k)), Image(blocks))
         == After(Gather(h, Shown(h, rs), b, k),
                  Spilled(Spill(h, blocks, b, rs), ExportFrom(h, Cursor(b + 1, 0), Image(blocks))))
    decreases |rs| - k
  {
    hide ReadBlock, Image, Encode, Carries, RecBytes, Spilled, Spill, Gather, After;
    var onward := Spilled(Spill(h, blocks, b, rs), ExportFrom(h, Cursor(b + 1, 0), Image(blocks)));
    var shown := Shown(h, rs);
    if k == |shown| {
      GoStops(h, blocks, b, rs);
      GatherNone(h, shown, b);
      AfterNothing(onward);
    } else {
      HoldsPrefix(blocks[b], rs, k + 1);
      HeldRecord(blocks[b], rs, k);
      GoTakesRecord(h, blocks, b, Off(rs, k), rs[k]);
      GatherFront(h, shown, b, k, onward);
      if Off(rs, k + 1) < 512 {
        GoWalksBlock(h, blocks, b, rs, k + 1);
      } else {
        FullBlockEnds(blocks[b], rs, k);
        NoSpill(h, blocks, b, rs);
        GatherNone(h, shown, b);
        AfterNothing(onward);
      }
    }
  }

  /** Leaving a block, at its first stale record or at its end. */
  lemma GoStops(h: Header, blocks: Blocks, b: nat, rs: seq<Rec>)
    requires b + 1 < |blocks| && b < 0x80_0000 && b < h.block && Full(blocks[b], rs)
    requires Off(rs, |Shown(h, rs)|) < 512
    ensures ExportFrom(h, Cursor(b, Off(rs, |Shown(h, rs)|)), Image(blocks))
         == Spilled(Spill(h, blocks, b, rs), ExportFrom(h, Cursor(b + 1, 0), Image(blocks)))
  {
    hide ReadBlock, Image, Encode, Carries, RecBytes, Off;
    var n := |Shown(h, rs)|;
    if n == |rs| {
      assert Shown(h, rs) == rs;
      OffEnd(rs);
      GoLeaves(h, blocks, b, rs);
    } else {
      HoldsPrefix(blocks[b], rs, n + 1);
      HeldRecord(blocks[b], rs, n);
      GoLeavesStale(h, blocks, b, Off(rs, n), rs[n]);
      assert Spill(h, blocks, b, rs) == [];
    }
  }

  lemma FullBlockEnds(b: Block, rs: seq<Rec>, k: nat)
    requires Holds(b, rs) && k < |rs| && Off(rs, k + 1) >= 512
    ensures k + 1 == |rs| && |Encode(rs)| == 512
  {
    hide Encode;
    OffEnd(rs);
    OffMonotone(rs, k + 1, |rs|);
  }

  lemma NoSpill(h: Header, blocks: Blocks, b: nat, rs: seq<Rec>)
    requires b <= MAX32 && |Encode(rs)| == 512
    ensures forall e :: Spilled(Spill(h, blocks, b, rs), e) == e
  {
  }

  lemma GatherNone(h: Header, rs: seq<Rec>, b: nat)
    ensures Gather(h, rs, b, |rs|) == NOTHING
  {
  }

  /** Zero blocks are skipped one by one. */
  lemma {:induction false} GoSkipsBlocks(h: Header, blocks: Blocks, b: nat, upto: nat)
    requires 0 < b <= upto <= h.block && upto < |blocks| && upto < 0x80_0000
    requires forall i :: b <= i < upto ==> blocks[i] == ZERO_BLOCK
    ensures ExportFrom(h, Cursor(b, 0), Image(blocks)) == ExportFrom(h, Cursor(upto, 0), Image(blocks))
    decreases upto - b
  {
    hide ReadBlock, Image;
    if b < upto {
      GoSkipsZeros(h, blocks, b, 0);
      GoSkipsBlocks(h, blocks, b + 1, upto);
    }
  }

  /** The payloads of blocks `i..e` of a log, per file. */
  ghost function GatherLog(h: Header, log: Log, i: nat, e: nat): FourFiles
    requires i <= e < |log|
  {
    [Data(Upto(log, i, e, |log[e]|, 0, h.files[0].version)), Data(Upto(log, i, e, |log[e]|, 1, h.files[1].version)),
     Data(Upto(log, i, e, |log[e]|, 2, h.files[2].version)), Data(Upto(log, i, e, |log[e]|, 3, h.files[3].version))]
  }

  lemma GatherLogOne(h: Header, log: Log, i: nat, e: nat, f: nat)
    requires i < e < |log| && f < 4
    ensures Data(Upto(log, i, e, |log[e]|, f, h.files[f].version))
         == Data(Pick(log[i], 8000 + i, 0, |log[i]|, f, h.files[f].version))
            + Data(Upto(log, i + 1, e, |log[e]|, f, h.files[f].version))
  {
    var v := h.files[f].version;
    UptoFront(log, i, e, |log[e]|, f, v);
    DataAdds(Pick(log[i], 8000 + i, 0, |log[i]|, f, v), Upto(log, i + 1, e, |log[e]|, f, v));
  }

  lemma GatherLogFront(h: Header, log: Log, i: nat, e: nat)
    requires i < e < |log|
    ensures After(Gather(h, log[i], 8000 + i, 0), Written(GatherLog(h, log, i + 1, e)))
            == Written(GatherLog(h, log, i, e))
  {
    hide Upto, Pick, Data;
    GatherLogOne(h, log, i, e, 0);
    GatherLogOne(h, log, i, e, 1);
    GatherLogOne(h, log, i, e, 2);
    GatherLogOne(h, log, i, e, 3);
  }

  /** How many entries the exporter invents in the blocks from `i` to the last but one. */
  ghost function SpillCount(h: Header, blocks: Blocks, log: Log, i: nat): nat
    requires |log| > 0 && i <= Top(log) && 8000 + |log| <= MAX32
    decreases Top(log) - i
  {
    if i == Top(log) then 0 else |Spill(h, blocks, 8000 + i, log[i])| + SpillCount(h, blocks, log, i + 1)
  }

  /** No entry header read across a block boundary is taken for an entry. */
  ghost predicate Refused(h: Header, blocks: Blocks, log: Log)
    requires |log| > 0 && 8000 + |log| <= MAX32
  {
    forall i :: 0 <= i < Top(log) ==> Spill(h, blocks, 8000 + i, log[i]) == []
  }

  lemma {:induction false} NoneSpilled(h: Header, blocks: Blocks, log: Log, i: nat)
    requires |log| > 0 && i <= Top(log) && 8000 + |log| <= MAX32
    ensures SpillCount(h, blocks, log, i) == 0 <==> forall k :: i <= k < Top(log) ==>
            Spill(h, blocks, 8000 + k, log[k]) == []
    decreases Top(log) - i
  {
    hide Spill;
    if i < Top(log) { NoneSpilled(h, blocks, log, i + 1); }
  }

  /** The export is `g`, with `n` more payloads in file 0. */
  ghost predicate Exports(e: Tally, g: FourFiles, n: nat) {
    && e.Written? && e.out[1] == g[1] && e.out[2] == g[2] && e.out[3] == g[3]
    && |e.out[0]| == |g[0]| + n && (n == 0 ==> e.out[0] == g[0])
  }

  lemma ExportsStep(block: FourFiles, p: Payloads, e: Tally, g: FourFiles, n: nat)
    requires Exports(e, g, n) && |p| <= 1
    ensures Exports(After(block, Spilled(p, e)), After(block, Written(g)).out, |p| + n)
  {
  }

  /** The exporter walks the log up to the header's block. */
  lemma {:induction false} GoWalksLog(h: Header, blocks: Blocks, log: Log, i: nat)
    requires |log| > 0 && i < Top(log) && h.block == 8000 + Top(log) < |blocks| && h.block <= 0x80_0000
    requires forall k :: 0 <= k < Top(log) ==> Full(blocks[8000 + k], log[k])
    ensures Exports(ExportFrom(h, Cursor(8000 + i, 0), Image(blocks)), GatherLog(h, ShownLog(h, log), i, Top(log) - 1),
                    SpillCount(h, blocks, log, i))
    decreases Top(log) - i
  {
    hide Image, Full, Gather, Untruncated, Off, Spill, Spilled, After, Exports, ExportFrom, GatherLog, SpillCount;
    hide Shown;
    var e, spill, shown := Top(log) - 1, Spill(h, blocks, 8000 + i, log[i]), ShownLog(h, log);
    assert shown[i] == Shown(h, log[i]);
    var block, onward := Gather(h, shown[i], 8000 + i, 0), ExportFrom(h, Cursor(8000 + i + 1, 0), Image(blocks));
    OffStart(log[i]);
    GoWalksBlock(h, blocks, 8000 + i, log[i], 0);
    SpillStep(h, blocks, log, i);
    if i == e {
      ExportEnds(h, Cursor(h.block, 0), Image(blocks));
      AllExported();
      ExportsStep(block, spill, onward, NOTHING, 0);
      GatherSame(h, shown, e);
      AfterAll(block);
    } else {
      GoWalksLog(h, blocks, log, i + 1);
      ExportsStep(block, spill, onward, GatherLog(h, shown, i + 1, e), SpillCount(h, blocks, log, i + 1));
      GatherLogFront(h, shown, i, e);
    }
  }

  lemma ExportEnds(h: Header, c: Cursor, image: seq<byte>)
    requires c.offset < 512 && c.block >= h.block
    ensures ExportFrom(h, c, image) == Written(NOTHING)
  {
  }

  lemma SpillStep(h: Header, blocks: Blocks, log: Log, i: nat)
    requires |log| > 0 && i < Top(log) && 8000 + |log| <= MAX32
    ensures SpillCount(h, blocks, log, i) == |Spill(h, blocks, 8000 + i, log[i])| + SpillCount(h, blocks, log, i + 1)
    ensures SpillCount(h, blocks, log, Top(log)) == 0
  {
    hide Spill;
  }

  lemma AllExported()
    ensures Exports(Written(NOTHING), NOTHING, 0)
  {
  }

  lemma GatherSame(h: Header, log: Log, e: nat)
    requires e < |log|
    ensures Gather(h, log[e], 8000 + e, 0) == GatherLog(h, log, e, e)
  {
    hide Pick, Data;
  }

  // ----- the iterator's side -----

  /** The hits in blocks before `b`. */
  ghost function Restrict(hits: seq<Hit>, b: nat): seq<Hit> {
    if |hits| == 0 then []
    else Restrict(hits[..|hits| - 1], b) + if hits[|hits| - 1].block < b then [hits[|hits| - 1]] else []
  }

  lemma {:induction false} RestrictSplits(low: seq<Hit>, high: seq<Hit>, b: nat)
    requires (forall h :: h in low ==> h.block < b) && forall h :: h in high ==> h.block >= b
    ensures Restrict(low + high, b) == low
    decreases |low| + |high|
  {
    var hits := low + high;
    if |high| > 0 {
      assert hits[..|hits| - 1] == low + high[..|high| - 1];
      RestrictSplits(low, high[..|high| - 1], b);
    } else if |low| > 0 {
      assert hits == low && low[..|low| - 1] + [] == low[..|low| - 1];
      RestrictSplits(low[..|low| - 1], [], b);
      assert low[|low| - 1] in low;
    }
  }

  /** Of a whole log, what lies before its last block. */
  lemma RestrictWhole(log: Log, f: nat, v: u16)
    requires |log| > 1
    ensures Restrict(Whole(log, 0, f, v), 8000 + Top(log)) == Upto(log, 0, Top(log) - 1, |log[Top(log) - 1]|, f, v)
  {
    hide Pick;
    var top := Top(log);
    UptoBlocks(log, 0, top - 1, |log[top - 1]|, f, v);
    PickBlock(log[top], 8000 + top, 0, |log[top]|, f, v);
    RestrictSplits(Upto(log, 0, top - 1, |log[top - 1]|, f, v), Pick(log[top], 8000 + top, 0, |log[top]|, f, v),
        8000 + top);
  }

  lemma RestrictFirst(log: Log, f: nat, v: u16)
    requires |log| == 1
    ensures Restrict(Whole(log, 0, f, v), 8000) == []
  {
    hide Pick;
    PickBlock(log[0], 8000, 0, |log[0]|, f, v);
    RestrictSplits([], Pick(log[0], 8000, 0, |log[0]|, f, v), 8000);
    assert [] + Pick(log[0], 8000, 0, |log[0]|, f, v) == Pick(log[0], 8000, 0, |log[0]|, f, v);
  }

  /** What the iterator returns for file `f`. */
  ghost function Iterated(s: Fs.Fs, f: nat): seq<Hit>
    requires f < 4 && Ring(s) && InRange(ViewBlocks(s), CreateToken(s.header, f))
  {
    Remaining(Versions(s.header), ViewBlocks(s), CreateToken(s.header, f))
  }

  /** No record of the file's present version lies in a block before its start. */
  ghost predicate Unrevived(file: FileHeader, log: Log, f: nat) {
    8000 < file.startBlock < 8000 + |log| ==>
      var k := file.startBlock - 8001;
      Upto(log, 0, k, |log[k]|, f, file.version) == []
  }

  lemma IteratedIsWhole(s: Fs.Fs, j: Journal, f: nat)
    requires Live(s, j) && f < 4 && Unrevived(s.header.files[f], j.log, f)
    ensures Ring(s) && InRange(ViewBlocks(s), CreateToken(s.header, f))
    ensures Iterated(s, f) == Whole(j.log, 0, f, s.header.files[f].version)
  {
    hide Live, Describes, Carried, Remaining, Final, Off, Data, HitsFrom, Upto;
    var file := s.header.files[f];
    LiveIsCoherent(s, j);
    LiveDescribes(s, j, f);
    DescribesBounds(file, j, f);
    DescribedContents(file, j, f);
    LiveCarried(s, j);
    var k, top := file.startBlock - 8000, Top(j.log);
    ScanDescribed(Versions(s.header), ViewBlocks(s), file, j, f, k, CreateToken(s.header, f));
    if k > 0 {
      UptoSplits(j.log, 0, k, top, |j.log[top]|, f, file.version);
      assert [] + Whole(j.log, k, f, file.version) == Whole(j.log, k, f, file.version);
    }
  }

  // ----- what stale records hide -----

  /** The records of file `f` that lie behind a stale one in their block. */
  ghost function Behind(h: Header, rs: seq<Rec>, b: nat, f: nat): seq<Hit>
    requires f < 4
  {
    Pick(rs, b, Lead(h, rs, 0), |rs|, f, h.files[f].version)
  }

  /** None of the file's records in the blocks before the last is hidden so. */
  ghost predicate Unhidden(h: Header, log: Log, f: nat)
    requires f < 4
  {
    forall i :: 0 <= i < |log| - 1 ==> Behind(h, log[i], 8000 + i, f) == []
  }

  lemma ShownThenBehind(h: Header, rs: seq<Rec>, b: nat, f: nat)
    requires f < 4
    ensures var v := h.files[f].version;
            Pick(rs, b, 0, |rs|, f, v) == Pick(Shown(h, rs), b, 0, |Shown(h, rs)|, f, v) + Behind(h, rs, b, f)
  {
    hide Pick;
    var n, v := Lead(h, rs, 0), h.files[f].version;
    PickSplits(rs, b, 0, n, |rs|, f, v);
    assert rs[..n] == Shown(h, rs)[..n];
    PickSame(rs, Shown(h, rs), b, 0, n, f, v);
  }

  /** What is shown of a log is all of it exactly if nothing is hidden, and less otherwise. */
  lemma {:induction false} ShownOf(h: Header, log: Log, e: nat, f: nat)
    requires e < |log| && f < 4
    ensures var v, shown := h.files[f].version, ShownLog(h, log);
            var a, b := Upto(shown, 0, e, |shown[e]|, f, v), Upto(log, 0, e, |log[e]|, f, v);
            && |a| <= |b| && (|a| == |b| <==> forall i :: 0 <= i <= e ==> Behind(h, log[i], 8000 + i, f) == [])
            && (|a| == |b| ==> a == b)
    decreases e
  {
    hide Pick, Behind, Shown;
    var v, shown := h.files[f].version, ShownLog(h, log);
    ShownThenBehind(h, log[e], 8000 + e, f);
    assert shown[e] == Shown(h, log[e]);
    if e > 0 {
      ShownOf(h, log, e - 1, f);
      var a, p := Upto(shown, 0, e - 1, |shown[e - 1]|, f, v), Pick(shown[e], 8000 + e, 0, |shown[e]|, f, v);
      var b, q := Upto(log, 0, e - 1, |log[e - 1]|, f, v), Pick(log[e], 8000 + e, 0, |log[e]|, f, v);
      assert |a + p| == |a| + |p| && |b + q| == |b| + |q|;
    }
  }

  // ----- the two together -----

  /** Which header the exporter uses: the one start-up trusts, unless the other
      slot, whose checksum only start-up looks at, has a generation that wins. */
  lemma HeadersAgree(s: Fs.Fs)
    requires Protocol(s)
    ensures Newest(s.card.blocks[0]) == s.headerIndex
    ensures var other, g := HeaderFrom(Slot(s.card.blocks[0], 1 - s.headerIndex)), s.header.generation;
            ReadHeader(Image(s.card.blocks))
            == if other.generation < g || (other.generation == g && s.headerIndex == 1) then Stored(s) else other
  {
    hide HeaderFrom, SlotValid, Image;
    var b := s.card.blocks[0];
    ImageSlice(s.card.blocks, 0, 0, HEADER_SIZE);
    ImageSlice(s.card.blocks, 0, HEADER_SIZE, 2 * HEADER_SIZE);
    var image := Image(s.card.blocks);
    assert image[..HEADER_SIZE] == Slot(b, 0) && image[HEADER_SIZE..2 * HEADER_SIZE] == Slot(b, 1);
    LeaderIsNewest(b, s.headerIndex, s.header.generation);
  }

  /** A synced volume in the exporter's range. */
  ghost predicate Exportable(s: Fs.Fs, j: Journal) {
    && Live(s, j) && !s.dirty && s.header.block <= 0x80_0000
    && Protocol(s) && Stored(s) == s.header
    && HeaderFrom(Slot(s.card.blocks[0], 1 - s.headerIndex)).generation < s.header.generation
    && (forall b :: 0 < b < 8000 ==> s.card.blocks[b] == ZERO_BLOCK)
  }

  /** What the exporter writes for each file. */
  ghost function Shows(h: Header, log: Log): FourFiles
    requires |log| > 0
  {
    if Top(log) == 0 then NOTHING else GatherLog(h, ShownLog(h, log), 0, Top(log) - 1)
  }

  /** On a synced image the exporter runs to its end, and writes the payloads of
      each block before the header's up to the block's first stale record, with
      one more for file 0 at each boundary where a straddling header passes. */
  lemma ExportsLog(s: Fs.Fs, j: Journal)
    requires Exportable(s, j)
    ensures 8000 + |j.log| <= MAX32
    ensures Exports(ExportFrom(s.header, Cursor(1, 0), Image(s.card.blocks)), Shows(s.header, j.log),
                    SpillCount(s.header, s.card.blocks, j.log, 0))
  {
    hide Image, Full, Describes, Encode, ReadBlock, HeaderFrom, Slot, SlotValid, Spill, GatherLog, Exports, ShownLog;
    var blocks := s.card.blocks;
    GoSkipsBlocks(s.header, blocks, 1, 8000);
    if Top(j.log) > 0 {
      forall k | 0 <= k < Top(j.log)
        ensures Full(blocks[8000 + k], j.log[k])
      {
        assert View(s, 8000 + k) == blocks[8000 + k] && Recs(j.log, 8000 + k) == j.log[k];
      }
      GoWalksLog(s.header, blocks, j.log, 0);
    } else {
      AllExported();
    }
  }

  /** That is what the whole log holds for a file before its last block, exactly if nothing is hidden. */
  lemma ShowsRestricted(h: Header, log: Log, f: nat)
    requires |log| > 0 && f < 4
    ensures var a, b := Shows(h, log)[f], Data(Restrict(Whole(log, 0, f, h.files[f].version), 8000 + Top(log)));
            (a == b <==> Unhidden(h, log, f)) && (Unhidden(h, log, f) ==> |a| == |b|)
  {
    hide Upto, Restrict, Whole, ShownLog, Behind;
    var v := h.files[f].version;
    if Top(log) == 0 {
      RestrictFirst(log, f, v);
    } else {
      RestrictWhole(log, f, v);
      ShownOf(h, log, Top(log) - 1, f);
    }
  }

  lemma ExportableBasics(s: Fs.Fs, j: Journal)
    requires Exportable(s, j)
    ensures Live(s, j) && Ring(s) && s.header.block == 8000 + Top(j.log) && 8000 + |j.log| <= MAX32
    ensures ReadHeader(Image(s.card.blocks)) == s.header
  {
    LiveIsCoherent(s, j);
    LiveBlock(s, j);
    hide Image, ReadHeader, Slot, HeaderFrom, SlotValid;
    HeadersAgree(s);
  }

  /** The two readers compared. On a synced image the exporter, with the header
      it finds there, runs to its end. What it writes for a file is what the
      iterator returns for it in blocks before the header's, if and only if none
      of these records lies behind a stale one in its block; file 0 also needs
      that no header read across a block boundary passes for an entry. */
  lemma ReadersAgree(s: Fs.Fs, j: Journal, f: nat)
    requires Exportable(s, j) && f < 4 && Unrevived(s.header.files[f], j.log, f)
    ensures 8000 + |j.log| <= MAX32
    ensures var image := Image(s.card.blocks);
            var e := ExportFrom(ReadHeader(image), Cursor(1, 0), image);
            var whole := f != 0 || Refused(s.header, s.card.blocks, j.log);
            && e.Written? && Ring(s) && InRange(ViewBlocks(s), CreateToken(s.header, f))
            && var agree := e.out[f] == Data(Restrict(Iterated(s, f), s.header.block));
            && (whole ==> (agree <==> Unhidden(s.header, j.log, f)))
            && (Unhidden(s.header, j.log, f) ==> (agree <==> whole))
  {
    hide Live, Image, ExportFrom, Upto, Iterated, ViewBlocks, Exportable, GatherLog, Restrict, Whole, Data;
    hide ReadHeader, Spill, Unhidden, Shows, Unrevived;
    ExportableBasics(s, j);
    ExportsLog(s, j);
    NoneSpilled(s.header, s.card.blocks, j.log, 0);
    IteratedIsWhole(s, j, f);
    ShowsRestricted(s.header, j.log, f);
  }

  /** On an image that was never truncated nothing is hidden and nothing revived. */
  lemma UntruncatedAgrees(s: Fs.Fs, j: Journal, f: nat)
    requires Exportable(s, j) && f < 4
    requires s.header.files[f].startBlock == 8000 && forall i :: 0 <= i < |j.log| ==> Untruncated(s.header, j.log[i])
    ensures Unrevived(s.header.files[f], j.log, f) && Unhidden(s.header, j.log, f)
  {
    hide Exportable, Pick;
    forall i | 0 <= i < |j.log| - 1
      ensures Behind(s.header, j.log[i], 8000 + i, f) == []
    {
      assert Untruncated(s.header, j.log[i]);
      PickNothing(j.log[i], 8000 + i, f, s.header.files[f].version);
    }
  }

  lemma PickNothing(rs: seq<Rec>, b: nat, f: nat, v: u16)
    ensures Pick(rs, b, |rs|, |rs|, f, v) == []
  {
  }

  // ----- at one input -----

  /** A stale record in front of a current one: the exporter leaves the block
      without the current one, for which the iterator steps on. */
  lemma StaleHides(h: Header, blocks: Blocks, b: nat, r: Rec, q: Rec)
    requires b + 1 < |blocks| && b < 0x80_0000 && b < h.block && Full(blocks[b], [r, q])
    requires r.version != h.files[r.file].version && q.version == h.files[q.file].version
    ensures ExportFrom(h, Cursor(b, 0), Image(blocks)) == ExportFrom(h, Cursor(b + 1, 0), Image(blocks))
    ensures Check(Versions(h), blocks[b], |RecBytes(r)|) == Good
  {
    hide ReadBlock, Image, RecBytes, Carries, Check, Encode;
    var rs := [r, q];
    assert rs[..0] == [] && rs[..1] == [r] && rs[..2] == rs;
    HoldsPrefix(blocks[b], rs, 1);
    HeldRecord(blocks[b], rs, 0);
    HeldRecord(blocks[b], rs, 1);
    OffStart(rs);
    GoLeavesStale(h, blocks, b, 0, r);
    TruncationIsExact(Versions(h), blocks[b], Off(rs, 1), q);
  }
}
