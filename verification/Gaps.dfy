/** Running on after a touch and a loss of power: the header counts records that
    are not on the card, and what is appended behind that gap is never read. */
module Gaps {
  import opened Bytes
  import opened Header
  import opened Entry
  import opened Card
  import opened Fs
  import opened Cache
  import opened HeaderProtocol
  import opened Layout
  import opened Scan
  import opened ScanLog
  import opened Journal
  import opened LiveVolume
  import opened Unsynced
  import opened Durable
  import opened Landing

  /** A clean filesystem whose header counts more records of its last block than
      the `n` that are on the card. */
  ghost predicate Gapped(u: Fs, j: Journal, n: nat) {
    && Idle(u) && Tracks(u.header, j) && n < |Last(j.log)| && Bears(u.card.blocks, Part(j.log, n))
    && ZeroFrom(u.card.blocks, 8000 + |j.log|)
  }

  /** The card is blank from block `first` on. */
  ghost predicate ZeroFrom(blocks: Blocks, first: nat) {
    forall b :: first <= b < |blocks| ==> Full(blocks[b], [])
  }

  lemma GappedTop(u: Fs, j: Journal, n: nat)
    requires Gapped(u, j, n)
    ensures u.header.block == 8000 + Top(j.log) && u.header.offset == |Encode(Last(j.log))| <= 512
    ensures Full(u.card.blocks[u.header.block], Last(j.log)[..n])
    ensures |Encode(Last(j.log)[..n])| + 8 <= u.header.offset
  {
    hide Full, Encode, Describes, RecBytes;
    var rs, top := Last(j.log), Top(j.log);
    assert Part(j.log, n)[top] == rs[..n];
    OffStep(rs, n);
    OffMonotone(rs, n + 1, |rs|);
    OffEnd(rs);
  }

  /** Start-up after a touch and a loss of power leaves such a gap whenever a record waited. */
  lemma LossLeavesGap(s: Fs, j: Journal, n: nat, time: u32, config: Fs)
    requires Live(s, j) && Written(s, j, n) && n < |Last(j.log)| && Protocol(s) && Working(s.card) && Pristine(config)
    ensures Gapped(Reboot(Touch(s, time).fs, config), j, n)
  {
    hide Live, Written, Bears, ZeroFrom, Tracks, Touch, Protocol, Reboot, Part, Stored;
    var t := Touch(s, time).fs;
    TouchTracks(s, j, time);
    WrittenBlocks(s, j, n);
    WrittenZeros(s, j, n);
    TouchCard(s, time);
    SameData(s.card.blocks, t.card.blocks, Part(j.log, n), 8000 + |j.log|);
    RebootHeader(t, j, config);
  }

  lemma SameData(a: Blocks, b: Blocks, log: Log, first: nat)
    requires Bears(a, log) && ZeroFrom(a, first) && first > 0
    requires |b| == |a| && forall i :: 0 < i < |a| ==> b[i] == a[i]
    ensures Bears(b, log) && ZeroFrom(b, first)
  {
    hide Full;
  }

  lemma WrittenZeros(s: Fs, j: Journal, n: nat)
    requires Written(s, j, n)
    ensures ZeroFrom(s.card.blocks, 8000 + |j.log|)
  {
    hide Full;
    forall b | 8000 + |j.log| <= b < |s.card.blocks|
      ensures Full(s.card.blocks[b], [])
    {
      assert Recs(Part(j.log, n), b) == [];
    }
  }

  lemma TouchTracks(s: Fs, j: Journal, time: u32)
    requires Live(s, j) && Protocol(s) && Working(s.card)
    ensures var t := Touch(s, time).fs;
            Protocol(t) && Ring(t) && Tracks(t.header, j) && Stored(t) == t.header && t.header.block == s.header.block
  {
    LiveIsCoherent(s, j);
    assert Tracks(s.header, j);
    hide Live, Tracks, Touch, Protocol, Stored, Slot, SameView;
    TouchWorks(s, time);
    TouchProtocol(s, time);
    TracksFrame(s.header, j, Touch(s, time).fs.header);
  }

  lemma RebootHeader(t: Fs, j: Journal, config: Fs)
    requires Protocol(t) && Ring(t) && Stored(t) == t.header && Tracks(t.header, j) && Pristine(config)
    ensures var u := Reboot(t, config);
            Coherent(u) && !u.dirty && Working(u.card) && Tracks(u.header, j) && u.card.blocks == t.card.blocks
  {
    hide Initialize, Tracks, Protocol, Stored;
    InitializeRestores(t, config.(card := Card(t.card.blocks, [])), [0, 0, 0, 0]);
    RebootKeeps(t, config);
    NamesTrack(t.header, j, config.header.files);
  }

  lemma ZeroHeaderEnds(versions: seq<u16>, b: Block, off: nat)
    requires |versions| == 4 && off + ENTRY_SIZE <= 512 && forall i :: off <= i < off + ENTRY_SIZE ==> b[i] == 0
    ensures Check(versions, b, off).Size?
  {
  }

  lemma GappedBasics(u: Fs, j: Journal, n: nat)
    requires Gapped(u, j, n)
    ensures Idle(u) && Coherent(u) && !u.dirty && Ring(u) && Tracks(u.header, j)
    ensures n < |Last(j.log)| && Bears(u.card.blocks, Part(j.log, n)) && ZeroFrom(u.card.blocks, 8000 + |j.log|)
  {
    hide Full, Describes, Encode;
  }

  lemma GapIsFree(u: Fs, j: Journal, n: nat, versions: seq<u16>)
    requires Gapped(u, j, n) && |versions| == 4
    ensures u.header.block < |u.card.blocks|
    ensures Check(versions, u.card.blocks[u.header.block], u.header.offset) == Size
  {
    GappedTop(u, j, n);
    hide Encode, Check, Tracks;
    ZeroEndsChain(versions, u.card.blocks[u.header.block], u.header.offset);
  }

  /** The block with the new entry still ends, for a scan, at the gap. */
  lemma GapEnds(b: Block, rs: seq<Rec>, versions: seq<u16>, at: nat, w: seq<byte>)
    requires |versions| == 4 && Full(b, rs) && |Encode(rs)| + 8 <= at && at + |w| <= 512
    ensures Ends(versions, Splice(b, at, w), rs)
  {
    hide Encode, Check;
    var c, q := Splice(b, at, w), |Encode(rs)|;
    assert c[..q] == b[..q];
    ZeroHeaderEnds(versions, c, q);
  }

  /** The next entry that fits goes to the header's offset. */
  lemma GapAppends(u: Fs, j: Journal, n: nat, f: nat, data: seq<byte>)
    requires Gapped(u, j, n) && f < 4 && 1 <= |data| && u.header.offset + ENTRY_SIZE + |data| <= 512
    ensures var t := Append(u, f, data).fs;
            && Append(u, f, data).ok && Ring(t) && OneMore(u.header, t.header, f, |data|)
            && Scribbled(u.card.blocks, ViewBlocks(t), u.header.block, u.header.offset, RecBytes(NewRec(u, f, data)))
  {
    GappedBasics(u, j, n);
    GapIsFree(u, j, n, Versions(u.header));
    hide Gapped, Tracks, Check, Allocate, AllocateFrom, Append, OneMore, Scribbled, RecBytes, Idle, Coherent;
    var a := AllocatesHere(u, f, ENTRY_SIZE + |data|);
    AppendLandsAt(u, f, data, a);
  }

  /** An append behind a gap succeeds, the file's size grows, and no scan
      returns it: the file reads as before. */
  lemma AppendBehindGap(u: Fs, j: Journal, n: nat, f: nat, data: seq<byte>)
    requires Gapped(u, j, n) && f < 4 && 1 <= |data| && u.header.offset + ENTRY_SIZE + |data| <= 512
    ensures var t := Append(u, f, data).fs;
            && Append(u, f, data).ok && t.header.files[f].size == (u.header.files[f].size + |data|) % 0x1_0000_0000
            && forall p :: Reads(u, f, p) ==> Reads(t, f, p)
  {
    hide Gapped, Tracks, Coherent, Bears, Scribbled, Remaining, Data, Encode, RecBytes, Last, Full, Part, Versions;
    hide Append, Idle, ZeroFrom;
    GappedBasics(u, j, n);
    GappedTop(u, j, n);
    GapAppends(u, j, n, f, data);
    var t := Append(u, f, data).fs;
    SameReading(u.card.blocks, ViewBlocks(t), u.header, t.header, j, n, f, RecBytes(NewRec(u, f, data)), |data|);
  }

  /** The next entry that does not fit goes to the start of the next block. */
  lemma GapMoves(u: Fs, j: Journal, n: nat, f: nat, data: seq<byte>)
    requires Gapped(u, j, n) && Roomy(u) && f < 4 && 1 <= |data| <= MAX_PAYLOAD
    requires u.header.offset + ENTRY_SIZE + |data| > 512
    ensures var t, h := Append(u, f, data).fs, u.header.(block := u.header.block + 1, offset := 0);
            && Append(u, f, data).ok && Ring(t) && OneMore(h, t.header, f, |data|)
            && Scribbled(u.card.blocks, ViewBlocks(t), h.block, 0, RecBytes(NewRec(u, f, data)))
  {
    hide Gapped, Tracks, Check, Allocate, AllocateFrom, Append, OneMore, Scribbled, RecBytes, Idle, Coherent;
    hide Full, Encode;
    hide Bears, ZeroFrom, Last, Versions, Roomy;
    GappedBasics(u, j, n);
    var required := ENTRY_SIZE + |data|;
    AllocateStarts(u, f, required);
    NextIsFree(u, j, n, Versions(u.header));
    var a := AllocatesNext(u, f, required, u.header.offset, 0);
    AppendLandsAt(u, f, data, a);
  }

  lemma NextIsFree(u: Fs, j: Journal, n: nat, versions: seq<u16>)
    requires Gapped(u, j, n) && Roomy(u) && |versions| == 4
    ensures u.header.block + 1 < |u.card.blocks| && Check(versions, u.card.blocks[u.header.block + 1], 0) == Size
    ensures Bears(u.card.blocks, Part(j.log, n) + [[]])
  {
    GappedTop(u, j, n);
    GappedBasics(u, j, n);
    hide Gapped, Encode, Check, Tracks;
    var b := u.card.blocks[u.header.block + 1];
    assert Full(b, []);
    EmptyChain();
    ZeroEndsChain(versions, b, 0);
  }

  lemma EmptyChain()
    ensures Encode([]) == []
  {
  }

  /** An append that does not fit the block with the gap moves on and is read back. */
  lemma AppendPastGap(u: Fs, j: Journal, n: nat, f: nat, data: seq<byte>)
    requires Gapped(u, j, n) && Roomy(u) && f < 4 && 1 <= |data| <= MAX_PAYLOAD
    requires u.header.offset + ENTRY_SIZE + |data| > 512
    ensures var t := Append(u, f, data).fs;
            && Append(u, f, data).ok && t.header.files[f].size == (u.header.files[f].size + |data|) % 0x1_0000_0000
            && forall p :: Reads(u, f, p) ==> Reads(t, f, p + [data])
  {
    hide Gapped, Tracks, Coherent, Bears, Scribbled, Remaining, Data, RecBytes, Append, Idle, ZeroFrom, Part;
    hide Last, Versions, Full;
    GappedBasics(u, j, n);
    GappedTop(u, j, n);
    NextIsFree(u, j, n, Versions(u.header));
    GapMoves(u, j, n, f, data);
    PastReading(u.card.blocks, ViewBlocks(Append(u, f, data).fs), u.header, Append(u, f, data).fs.header, j, n,
        NewRec(u, f, data));
  }

  lemma PastReading(c: Blocks, v: Blocks, h: Header, g: Header, j: Journal, n: nat, r: Rec)
    requires Tracks(h, j) && n < |Last(j.log)| && Bears(c, Part(j.log, n)) && Bears(c, Part(j.log, n) + [[]])
    requires h.block < MAX32 && OneMore(h.(block := h.block + 1, offset := 0), g, r.file, |r.data|)
    requires r.version == h.files[r.file].version && Scribbled(c, v, h.block + 1, 0, RecBytes(r))
    ensures InRange(c, CreateToken(h, r.file)) && InRange(v, CreateToken(g, r.file))
    ensures Data(Remaining(Versions(g), v, CreateToken(g, r.file)))
         == Data(Remaining(Versions(h), c, CreateToken(h, r.file))) + [r.data]
  {
    hide Tracks, Bears, Scribbled, Remaining, Data, Encode, RecBytes, Upto, Off, Landed, Grown;
    var f, file, part, top := r.file, h.files[r.file], Part(j.log, n), Top(j.log);
    TracksFile(h, j, f);
    PastToken(h, g, f, |r.data|);
    OffStart((part + [[]])[top + 1]);
    ReadsLanding(c, v, part + [[]], top + 1, 0, r, Versions(g), file.startBlock - 8000, CreateToken(g, f));
    LandedMoved(file, j, n, f);
    ScanLanded(c, h, j, n, f);
  }

  lemma PastToken(h: Header, g: Header, f: nat, size: nat)
    requires f < 4 && h.block < MAX32 && OneMore(h.(block := h.block + 1, offset := 0), g, f, size)
    ensures var t := CreateToken(g, f);
            t == Token(f, h.files[f].startBlock, h.files[f].startOffset, h.block + 1, ENTRY_SIZE + size, t.size)
    ensures Versions(g)[f] == h.files[f].version
  {
  }

  lemma LandedMoved(file: FileHeader, j: Journal, n: nat, f: nat)
    requires n <= |Last(j.log)| && 8000 <= file.startBlock < 8000 + |j.log|
    ensures Upto(Part(j.log, n) + [[]], file.startBlock - 8000, |j.log|, 0, f, file.version) == Landed(file, j, n, f)
  {
    WholeMoved(Part(j.log, n), file.startBlock - 8000, f, file.version);
  }

  /** After a touch and a loss of power, an append that succeeds is read back
      exactly if its entry does not fit the block with the gap. */
  lemma AppendAfterGap(u: Fs, j: Journal, n: nat, f: nat, data: seq<byte>)
    requires Gapped(u, j, n) && Roomy(u) && f < 4 && 1 <= |data| <= MAX_PAYLOAD
    ensures var t := Append(u, f, data).fs;
            && Append(u, f, data).ok && t.header.files[f].size == (u.header.files[f].size + |data|) % 0x1_0000_0000
            && forall p :: Reads(u, f, p) ==>
                 (Reads(t, f, p + [data]) <==> u.header.offset + ENTRY_SIZE + |data| > 512)
  {
    hide Gapped, Append, Roomy;
    if u.header.offset + ENTRY_SIZE + |data| <= 512 {
      AppendBehindGap(u, j, n, f, data);
      forall p | Reads(u, f, p)
        ensures !Reads(Append(u, f, data).fs, f, p + [data])
      {
        assert |p + [data]| == |p| + 1;
      }
    } else {
      AppendPastGap(u, j, n, f, data);
    }
  }

  /** Two cards that differ behind the gap only read alike. */
  lemma SameReading(
    c: Blocks, v: Blocks, h: Header, g: Header, j: Journal, n: nat, f: nat, w: seq<byte>, size: nat)
    requires Tracks(h, j) && f < 4 && OneMore(h, g, f, size) && n < |Last(j.log)|
    requires Bears(c, Part(j.log, n)) && |Encode(Last(j.log)[..n])| + 8 <= h.offset
             && Scribbled(c, v, h.block, h.offset, w)
    ensures InRange(c, CreateToken(h, f)) && InRange(v, CreateToken(g, f))
    ensures Remaining(Versions(g), v, CreateToken(g, f)) == Remaining(Versions(h), c, CreateToken(h, f))
  {
    hide Tracks, Bears, BearsUpto, Scribbled, OneMore, Remaining, Landed, Encode, Part, CreateToken, Versions, Bounded;
    var file := h.files[f];
    TracksFile(h, j, f);
    ScanLanded(c, h, j, n, f);
    GapCard(c, v, Part(j.log, n), h.offset, w, Versions(g));
    OneMoreToken(h, g, f, size);
    GapScan(Versions(g), v, file, j, n, f, CreateToken(g, f));
  }

  lemma TracksFile(h: Header, j: Journal, f: nat)
    requires Tracks(h, j) && f < 4
    ensures h.block == 8000 + Top(j.log) && Bounded(h.files[f], j, f)
  {
    hide Describes, Off;
    DescribesBounds(h.files[f], j, f);
  }

  lemma OneMoreToken(h: Header, g: Header, f: nat, size: nat)
    requires f < 4 && OneMore(h, g, f, size)
    ensures var t := CreateToken(g, f);
            t == Token(f, h.files[f].startBlock, h.files[f].startOffset, h.block, g.offset, t.size)
    ensures Versions(g)[f] == h.files[f].version && h.offset < g.offset
  {
  }

  /** The card bears the log, but behind its last chain there may be more than zeros. */
  ghost predicate BearsUpto(versions: seq<u16>, v: Blocks, log: Log, at: nat)
    requires |versions| == 4
  {
    && 0 < |log| && 8000 + |log| + 1 < |v| && |Encode(log[Top(log)])| <= at
    && (forall k :: 0 <= k < Top(log) ==> Full(v[8000 + k], log[k]))
        && Ends(versions, v[8000 + Top(log)], log[Top(log)])
  }

  lemma GapScan(versions: seq<u16>, v: Blocks, file: FileHeader, j: Journal, n: nat, f: nat, t: Token)
    requires |versions| == 4 && f < 4 && versions[f] == file.version && n <= |Last(j.log)| && Bounded(file, j, f)
    requires BearsUpto(versions, v, Part(j.log, n), t.lastOffset)
    requires t == Token(f, file.startBlock, file.startOffset, t.lastBlock, t.lastOffset, t.size)
    requires t.lastBlock == 8000 + Top(j.log)
    ensures 8000 <= file.startBlock < 8000 + |j.log| && InRange(v, t)
    ensures Remaining(versions, v, t) == Landed(file, j, n, f)
  {
    hide Full, Remaining, Encode, Upto, Ends, Off;
    ScanRunsOut(versions, v, t, Part(j.log, n), file.startBlock - 8000, Top(j.log));
  }

  lemma GapCard(c: Blocks, v: Blocks, log: Log, at: nat, w: seq<byte>, versions: seq<u16>)
    requires |log| > 0 && |versions| == 4 && Bears(c, log) && |Encode(Last(log))| + 8 <= at
    requires Scribbled(c, v, 8000 + Top(log), at, w)
    ensures forall e :: at <= e ==> BearsUpto(versions, v, log, e)
  {
    hide Full, Encode, Ends, Splice;
    GapEnds(c[8000 + Top(log)], Last(log), versions, at, w);
    forall k | 0 <= k < Top(log)
      ensures Full(v[8000 + k], log[k])
    {
      assert v[8000 + k] == c[8000 + k];
    }
  }
}
