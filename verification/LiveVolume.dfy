/** Before the log wraps, every operation keeps the filesystem's view of the
    card equal to its journal, whatever the device does. */
module LiveVolume {
  import opened Bytes
  import opened Header
  import opened Entry
  import opened Search
  import opened Card
  import opened Fs
  import opened Cache
  import opened Layout
  import opened Scan
  import opened ScanLog
  import opened Journal

  function Recs(log: Log, b: nat): seq<Rec>
    requires b >= 8000
  {
    if b - 8000 < |log| then log[b - 8000] else []
  }

  ghost predicate Live(s: Fs, j: Journal) {
    && Coherent(s) && Tracks(s.header, j)
    && forall b :: 8000 <= b < |s.card.blocks| ==> Full(View(s, b), Recs(j.log, b))
  }

  /** The blocks as the filesystem sees them. */
  ghost function ViewBlocks(s: Fs): (v: Blocks)
    requires Ring(s)
    ensures |v| == |s.card.blocks|
  {
    if s.dirty then s.card.blocks[s.header.block := s.buffer] else s.card.blocks
  }

  lemma LiveIsCoherent(s: Fs, j: Journal)
    requires Live(s, j)
    ensures Coherent(s) && Ring(s)
  {
  }

  lemma LiveBlock(s: Fs, j: Journal)
    requires Live(s, j)
    ensures s.header.block == 8000 + Top(j.log)
  {
  }

  lemma LiveDescribes(s: Fs, j: Journal, f: nat)
    requires Live(s, j) && f < 4
    ensures Describes(s.header.files[f], j, f)
  {
    hide Describes;
  }

  lemma LiveFrame(s: Fs, j: Journal, t: Fs)
    requires Live(s, j) && Coherent(t) && SameView(s, t)
    requires t.header.block == s.header.block && t.header.offset == s.header.offset && t.header.files == s.header.files
    ensures Live(t, j)
  {
    hide Full, Tracks, Coherent;
    TracksFrame(s.header, j, t.header);
  }

  lemma LiveFsync(s: Fs, j: Journal)
    requires Live(s, j)
    ensures Live(Fsync(s).fs, j)
  {
    hide Fsync;
    FsyncKeeps(s);
    LiveFrame(s, j, Fsync(s).fs);
  }

  lemma LiveTouch(s: Fs, j: Journal, time: u32)
    requires Live(s, j)
    ensures Live(Touch(s, time).fs, j)
  {
    hide HeaderWrite, Full, Tracks;
    var t := s.(header := s.header.(time := time));
    HeaderWriteKeeps(t, false);
    LiveFrame(s, j, Touch(s, time).fs);
  }

  lemma LiveFlush(s: Fs, j: Journal, time: u32)
    requires Live(s, j)
    ensures Live(Flush(s, time).fs, j)
  {
    hide Touch, Fsync;
    LiveTouch(s, j, time);
    if Touch(s, time).ok { LiveFsync(Touch(s, time).fs, j); }
  }

  lemma LiveEnsure(s: Fs, j: Journal, block: u32)
    requires Live(s, j) && (!s.dirty || s.cached == block)
    ensures Live(BlockEnsure(s, block).fs, j)
  {
    hide BlockEnsure;
    EnsureKeeps(s, block);
    LiveFrame(s, j, BlockEnsure(s, block).fs);
  }

  // ----- appending -----

  /** The journal once the header stands at block `block`. */
  function Reached(j: Journal, from: u32, block: u32): Journal {
    if block == from then j else Moved(j)
  }

  /** There is a block to move to before the ring wraps. */
  ghost predicate Roomy(s: Fs) {
    s.header.block + 1 < s.numberOfBlocks - 2
  }

  lemma RecsMoved(log: Log, b: nat)
    requires b >= 8000
    ensures Recs(log + [[]], b) == Recs(log, b)
  {
  }

  lemma LiveMoved(s: Fs, j: Journal, t: Fs)
    requires Live(s, j) && Coherent(t) && SameView(s, t)
    requires t.header.block == s.header.block + 1 && t.header.offset == 0 && t.header.files == s.header.files
    ensures Live(t, Moved(j))
  {
    hide Full, Tracks, Coherent, Encode;
    MovedTracks(s.header, j, t.header);
    forall b | 8000 <= b < |t.card.blocks|
      ensures Full(View(t, b), Recs(Moved(j).log, b))
    {
      RecsMoved(j.log, b);
      assert View(t, b) == View(s, b);
    }
  }

  lemma LiveArrive(s: Fs, j: Journal, move: bool)
    requires Live(s, j) && (move ==> Roomy(s))
    ensures var o := Arrive(s, move);
            && Live(o.fs, Reached(j, s.header.block, o.fs.header.block)) && SameFiles(s, o.fs)
            && (o.ok ==> o.fs.cached == o.fs.header.block && o.fs.buffer == View(o.fs, o.fs.header.block)
                         && o.fs.header.block == (if move then s.header.block + 1 else s.header.block)
                         && o.fs.header.offset == if move then 0 else s.header.offset)
  {
    hide Arrive, Full, Tracks, MoveOn, BlockEnsure;
    ArriveKeeps(s, move);
    var o := Arrive(s, move);
    ArriveOffset(s, move);
    if o.fs.header.block == s.header.block {
      LiveFrame(s, j, o.fs);
    } else {
      LiveMoved(s, j, o.fs);
    }
  }

  /** A failed arrival has moved on entirely or not at all. */
  lemma ArriveOffset(s: Fs, move: bool)
    requires Coherent(s) && (move ==> Roomy(s))
    ensures var t := Arrive(s, move).fs;
            t.header.offset == if t.header.block == s.header.block then s.header.offset else 0
  {
    hide MoveOn, BlockEnsure;
    var m := if move then MoveOn(s) else Outcome(s, true);
    if move { MoveOnKeeps(s); }
    if m.ok { EnsureKeeps(m.fs, m.fs.header.block); }
  }

  /** On a live volume the search always stops at once, at the end of the chain. */
  lemma LookFindsEnd(s: Fs, j: Journal, f: nat, required: nat)
    requires Live(s, j) && s.buffer == View(s, s.header.block)
    requires f < 4 && required >= 8 && s.header.offset + required <= 512
    ensures Look(s, f, required, s.header.offset) == Result(s.header.offset, Size)
  {
    hide Check, Encode, Describes;
    assert Recs(j.log, s.header.block) == j.log[Top(j.log)];
    assert Full(s.buffer, j.log[Top(j.log)]);
    ZeroEndsChain(Versions(s.header), s.buffer, s.header.offset);
  }

  /** Allocation is one arrival: the current block if the entry fits, else the next. */
  lemma LiveAllocate(s: Fs, j: Journal, f: nat, required: nat)
    requires Live(s, j) && Roomy(s) && f < 4 && 8 <= required <= 512
    ensures var move := required + s.header.offset > 512;
            var a := Arrive(s, move);
            var o := Allocate(s, f, required);
            && o == a
            && Live(o.fs, Reached(j, s.header.block, o.fs.header.block)) && SameFiles(s, o.fs)
            && (o.ok ==> o.fs.cached == o.fs.header.block && o.fs.header.offset + required <= 512
                         && o.fs.buffer == View(o.fs, o.fs.header.block)
                         && o.fs.header.block == if move then s.header.block + 1 else s.header.block)
  {
    hide Arrive, Look, Live;
    var move := required + s.header.offset > 512;
    var a := Arrive(s, move);
    LiveArrive(s, j, move);
    if a.ok {
      LookFindsEnd(a.fs, Reached(j, s.header.block, a.fs.header.block), f, required);
    }
  }

  lemma LivePut(s: Fs, j: Journal, f: nat, data: seq<byte>)
    requires Live(s, j) && f < 4 && 1 <= |data| <= MAX_PAYLOAD && s.header.offset + ENTRY_SIZE + |data| <= 512
    requires s.cached == s.header.block && s.buffer == View(s, s.header.block)
    ensures Live(Put(s, f, data), Added(j, NewRec(s, f, data)))
  {
    hide Put, Tracks, Full, Coherent, Encode;
    PutFacts(s, f, data);
    PutTracks(s, j, f, data);
    PutLayout(s, j, f, data);
  }

  lemma PutTracks(s: Fs, j: Journal, f: nat, data: seq<byte>)
    requires Tracks(s.header, j) && f < 4 && 1 <= |data| <= MAX_PAYLOAD && s.header.offset + ENTRY_SIZE + |data| <= 512
    ensures Tracks(Put(s, f, data).header, Added(j, NewRec(s, f, data)))
  {
    hide Tracks, Put, Grown, EntryBytes;
    PutGrows(s, f, data);
    AddedTracks(s.header, j, NewRec(s, f, data), Put(s, f, data).header);
  }

  /** The header after one more entry of file `f`. */
  lemma PutGrows(s: Fs, f: nat, data: seq<byte>)
    requires f < 4 && 1 <= |data| <= MAX_PAYLOAD && s.header.offset + ENTRY_SIZE + |data| <= 512
    ensures var h := Put(s, f, data).header;
            && h.block == s.header.block && h.offset == s.header.offset + ENTRY_SIZE + |data|
            && h.files == s.header.files[f := Grown(s.header.files[f], s.header.block, h.offset, |data|)]
  {
    hide Splice, RecBytes;
  }

  lemma PutLayout(s: Fs, j: Journal, f: nat, data: seq<byte>)
    requires Live(s, j) && f < 4 && 1 <= |data| <= MAX_PAYLOAD && s.header.offset + ENTRY_SIZE + |data| <= 512
    requires s.cached == s.header.block && s.buffer == View(s, s.header.block)
    ensures var p := Put(s, f, data);
            forall b :: 8000 <= b < |p.card.blocks| ==> Full(View(p, b), Recs(Added(j, NewRec(s, f, data)).log, b))
  {
    hide Encode, EntryBytes, Splice, Describes, Full;
    var p, r, rs := Put(s, f, data), NewRec(s, f, data), j.log[Top(j.log)];
    assert Recs(j.log, s.header.block) == rs;
    PutExtends(s.buffer, rs, r);
    forall b | 8000 <= b < |p.card.blocks|
      ensures Full(View(p, b), Recs(Added(j, r).log, b))
    {
      if b != s.header.block {
        assert View(p, b) == View(s, b);
        assert Recs(Added(j, r).log, b) == Recs(j.log, b);
      } else {
        assert Recs(Added(j, r).log, b) == rs + [r];
      }
    }
  }

  /** Did the append put its payload into the log? Every append that returns
      true did; one that fails in its final sync did too. */
  ghost predicate Took(s: Fs, f: nat, data: seq<byte>)
    requires f < 4 && |data| <= 65528
  {
    Admitted(|data|) && Allocate(s, f, ENTRY_SIZE + |data|).ok
  }

  /** The journal after an append. */
  ghost function AfterAppend(s: Fs, j: Journal, f: nat, data: seq<byte>): Journal
    requires f < 4 && |data| <= 65528
  {
    if !Admitted(|data|) then j
    else
      var a := Allocate(s, f, ENTRY_SIZE + |data|);
      var k := Reached(j, s.header.block, a.fs.header.block);
      if a.ok then Added(k, NewRec(s, f, data)) else k
  }

  lemma LiveAppend(s: Fs, j: Journal, f: nat, data: seq<byte>)
    requires Live(s, j) && Roomy(s) && f < 4 && |data| <= 65528
    ensures Live(Append(s, f, data).fs, AfterAppend(s, j, f, data))
    ensures Append(s, f, data).fs.header.block == s.header.block
            <==> |AfterAppend(s, j, f, data).log| == |j.log|
  {
    hide Allocate, Fsync, Put, Live;
    if Admitted(|data|) {
      var required := ENTRY_SIZE + |data|;
      LiveAllocate(s, j, f, required);
      var a := Allocate(s, f, required);
      if a.ok {
        var k := Reached(j, s.header.block, a.fs.header.block);
        LivePut(a.fs, k, f, data);
        assert NewRec(a.fs, f, data) == NewRec(s, f, data);
        var p := Put(a.fs, f, data);
        PutBlock(a.fs, k, f, data);
        LiveFsync(p, Added(k, NewRec(s, f, data)));
      }
    }
  }

  lemma PutBlock(s: Fs, j: Journal, f: nat, data: seq<byte>)
    requires Live(s, j) && f < 4 && 1 <= |data| <= MAX_PAYLOAD && s.header.offset + ENTRY_SIZE + |data| <= 512
    requires s.cached == s.header.block
    ensures Put(s, f, data).header.block == s.header.block
    ensures Fsync(Put(s, f, data)).fs.header.block == s.header.block
  {
    hide Put, Fsync;
    PutFacts(s, f, data);
    FsyncKeeps(Put(s, f, data));
  }

  lemma AllocateAccepts(s: Fs, j: Journal, f: nat, required: nat)
    requires Live(s, j) && Roomy(s) && f < 4 && 8 <= required <= 512 && Working(s.card)
    ensures var a := Allocate(s, f, required);
            a.ok && Working(a.fs.card) && Coherent(a.fs) && a.fs.cached == a.fs.header.block
  {
    hide Allocate, Arrive, Tracks, Full, SameFiles;
    LiveAllocate(s, j, f, required);
    ArriveWorks(s, required + s.header.offset > 512);
  }

  lemma PutAccepts(s: Fs, f: nat, data: seq<byte>)
    requires Coherent(s) && Working(s.card) && s.cached == s.header.block
    requires f < 4 && 1 <= |data| <= MAX_PAYLOAD && s.header.offset + ENTRY_SIZE + |data| <= 512
    ensures Fsync(Put(s, f, data)).ok
  {
    hide Put, Fsync;
    PutFacts(s, f, data);
    FsyncWorks(Put(s, f, data));
  }

  /** With a working device and room ahead, every payload of 1 to 505 bytes is accepted. */
  lemma AppendAccepts(s: Fs, j: Journal, f: nat, data: seq<byte>)
    requires Live(s, j) && Roomy(s) && f < 4 && |data| <= 65528 && Working(s.card)
    ensures Append(s, f, data).ok <==> 1 <= |data| <= MAX_PAYLOAD
  {
    hide Allocate, Fsync, Put, Live, Coherent, Working, Roomy;
    if Admitted(|data|) {
      AllocateAccepts(s, j, f, ENTRY_SIZE + |data|);
      PutAccepts(Allocate(s, f, ENTRY_SIZE + |data|).fs, f, data);
    }
  }

  // ----- truncating -----

  lemma LiveTruncate(s: Fs, j: Journal, f: nat)
    requires Live(s, j) && f < 4 && j.bumps[f] < 0xFFFF
    ensures Live(Truncate(s, f), Cut(j, f))
  {
    hide Full, Describes, Encode;
    var t := Truncate(s, f);
    CutTracks(s.header, j, f, t.header);
    assert forall b :: 0 <= b < |s.card.blocks| ==> View(t, b) == View(s, b);
  }

  function CutAll(j: Journal): Journal {
    Cut(Cut(Cut(Cut(j, 0), 1), 2), 3)
  }

  lemma LiveTruncateAll(s: Fs, j: Journal)
    requires Live(s, j) && forall f :: 0 <= f < 4 ==> j.bumps[f] < 0xFFFF
    ensures Live(TruncateAll(s), CutAll(j))
  {
    hide Live, Truncate;
    LiveTruncate(s, j, 0);
    LiveTruncate(Truncate(s, 0), Cut(j, 0), 1);
    LiveTruncate(Truncate(Truncate(s, 0), 1), Cut(Cut(j, 0), 1), 2);
    LiveTruncate(Truncate(Truncate(Truncate(s, 0), 1), 2), Cut(Cut(Cut(j, 0), 1), 2), 3);
  }

  // ----- reading -----

  lemma LiveCarried(s: Fs, j: Journal)
    requires Live(s, j)
    ensures Carried(ViewBlocks(s), j)
  {
    hide Full, Encode, Describes;
    var top := Top(j.log);
    var rs := j.log[top];
    assert rs[..|rs|] == rs;
    var blocks := ViewBlocks(s);
    forall b | 8000 <= b < |blocks|
      ensures Full(blocks[b], Recs(j.log, b))
    {
      assert blocks[b] == View(s, b);
    }
    forall i | 0 <= i <= top
      ensures Full(blocks[8000 + i], j.log[i])
    {
      assert Recs(j.log, 8000 + i) == j.log[i];
    }
    assert Full(blocks[8000 + top], rs);
    FullHolds(blocks[8000 + top], rs);
  }

  lemma FullHolds(b: Block, rs: seq<Rec>)
    requires Full(b, rs)
    ensures Holds(b, rs)
  {
  }

  /** An unlimited scan of file `f` returns `p`. */
  ghost predicate Reads(s: Fs, f: nat, p: Payloads)
    requires f < 4
  {
    && Ring(s) && InRange(ViewBlocks(s), CreateToken(s.header, f))
    && Data(Remaining(Versions(s.header), ViewBlocks(s), CreateToken(s.header, f))) == p
  }

  /** Reading any file of a live volume returns its journal's contents. */
  lemma LiveReads(s: Fs, j: Journal, f: nat)
    requires Live(s, j) && f < 4
    ensures InRange(ViewBlocks(s), CreateToken(s.header, f))
    ensures Data(Remaining(Versions(s.header), ViewBlocks(s), CreateToken(s.header, f))) == j.contents[f]
    ensures Final(Versions(s.header), ViewBlocks(s), CreateToken(s.header, f)) == MoveEnd(CreateToken(s.header, f))
    ensures s.header.files[f].size == Total(j.contents[f]) % 0x1_0000_0000
  {
    hide Full, Describes, Remaining, Final, Carried;
    LiveCarried(s, j);
    ReadsContents(ViewBlocks(s), s.header, j, f);
  }
}
