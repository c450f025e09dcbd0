/** What survives losing power: between operations, and in the middle of one. */
module Durable {
  import opened Bytes
  import Crc
  import opened Header
  import opened Entry
  import opened Card
  import opened Fs
  import opened Cache
  import opened HeaderProtocol
  import opened Layout
  import opened Scan
  import opened ScanLog
  import opened Journal
  import opened LiveVolume
  import opened Incremental
  import opened Unsynced

  /** The stored header is not ahead of the live one, and an unsynced buffer
      still begins with everything the stored header describes. */
  ghost predicate Trails(s: Fs)
    requires Ring(s)
  {
    var w := Stored(s);
    && w.block <= s.header.block
    && (w.block == s.header.block ==> w.offset <= s.header.offset <= 512)
    && (s.dirty && w.block == s.header.block ==>
         s.buffer[..w.offset] == s.card.blocks[s.header.block][..w.offset])
  }

  /** The card by itself carries the journal `d`, and its newest slot describes it. */
  ghost predicate Kept(s: Fs, d: Journal) {
    && Ring(s) && Protocol(s) && Tracks(Stored(s), d) && Trails(s)
    && forall b :: 8000 <= b < |s.card.blocks| ==> Full(s.card.blocks[b], Recs(d.log, b))
  }

  /** A clean live volume whose header is stored is kept as it is. */
  lemma CleanIsKept(s: Fs, j: Journal)
    requires Live(s, j) && Protocol(s) && Stored(s) == s.header && !s.dirty
    ensures Kept(s, j)
  {
    hide Full, Describes, Encode, Leads;
    forall b | 8000 <= b < |s.card.blocks|
      ensures Full(s.card.blocks[b], Recs(j.log, b))
    {
      assert View(s, b) == s.card.blocks[b];
    }
  }

  lemma KeptFrame(s: Fs, d: Journal, t: Fs)
    requires Kept(s, d) && Ring(t) && Protocol(t) && Stored(t) == Stored(s)
    requires |t.card.blocks| == |s.card.blocks| && forall b :: 0 < b < |s.card.blocks| ==>
             t.card.blocks[b] == s.card.blocks[b]
    requires Trails(t)
    ensures Kept(t, d)
  {
    hide Full, Tracks, Protocol, Stored, Trails;
  }

  /** A successful sync of a dirty buffer makes the live journal durable. */
  lemma KeptFsync(s: Fs, j: Journal, d: Journal)
    requires Live(s, j) && Protocol(s) && Fsync(s).ok && (s.dirty ==> s.header.generation < MAX32)
    requires s.dirty || Kept(s, d)
    ensures Kept(Fsync(s).fs, if s.dirty then j else d)
  {
    hide Fsync, Live, Kept, Protocol, Stored;
    FsyncBasics(s, j);
    if s.dirty {
      CleanIsKept(Fsync(s).fs, j);
    } else {
      CleanFsync(s);
    }
  }

  lemma FsyncBasics(s: Fs, j: Journal)
    requires Live(s, j) && Protocol(s) && Fsync(s).ok && (s.dirty ==> s.header.generation < MAX32)
    ensures Live(Fsync(s).fs, j) && Protocol(Fsync(s).fs) && !Fsync(s).fs.dirty
    ensures s.dirty ==> Stored(Fsync(s).fs) == Fsync(s).fs.header
  {
    hide Fsync, Tracks, Full, Protocol, Stored;
    LiveFsync(s, j);
    FsyncHolds(s);
    FsyncKeeps(s);
  }

  /** The journal `d` is durable, or a sync is about to make the live one so. */
  ghost predicate Secured(s: Fs, d: Journal, syncs: bool) {
    Protocol(s) && (Kept(s, d) || (s.dirty && syncs))
  }

  lemma KeptArrive(s: Fs, j: Journal, d: Journal, move: bool)
    requires Live(s, j) && Secured(s, d, move) && Arrive(s, move).ok && (s.dirty ==> s.header.generation < MAX32)
    requires move ==> Roomy(s)
    ensures Kept(Arrive(s, move).fs, if s.dirty && move then j else d)
  {
    hide Live, Tracks, Full, Fsync, Protocol, HeaderFrom, Slot;
    assert Coherent(s) by { LiveIsCoherent(s, j); }
    var k := if s.dirty && move then j else d;
    var q := if move then Fsync(s).fs else s;
    ArriveStores(s, move);
    if move { KeptFsync(s, j, d); FsyncKeeps(s); }
    ArriveHolds(s, move);
    ArriveKeeps(s, move);
    var t := Arrive(s, move).fs;
    assert Stored(t) == Stored(q);
    KeptFrame(q, k, t);
  }

  /** The card after an arrival is the card after its sync. */
  lemma ArriveStores(s: Fs, move: bool)
    requires Coherent(s)
    ensures var q := if move then Fsync(s) else Outcome(s, true);
            var t := Arrive(s, move).fs;
            && (Arrive(s, move).ok ==> q.ok)
            && t.card.blocks == q.fs.card.blocks && t.headerIndex == q.fs.headerIndex && t.dirty == q.fs.dirty
            && (!move ==> t.header == s.header && (s.dirty ==> t == s))
  {
    hide Fsync;
    if move { FsyncKeeps(s); MoveOnKeeps(s); }
  }

  lemma KeptPut(s: Fs, d: Journal, f: nat, data: seq<byte>)
    requires Coherent(s) && Kept(s, d) && s.cached == s.header.block && s.buffer == View(s, s.header.block)
    requires f < 4 && 1 <= |data| <= MAX_PAYLOAD && s.header.offset + ENTRY_SIZE + |data| <= 512
    ensures Kept(Put(s, f, data), d)
  {
    hide Full, Tracks, RecBytes, Stored, Leads;
    var p := Put(s, f, data);
    PutFacts(s, f, data);
    ProtocolFrame(s, p);
    var n := Stored(s).offset;
    if Stored(s).block == s.header.block {
      assert p.buffer[..n] == s.buffer[..n];
    }
    KeptFrame(s, d, p);
  }

  /** What is durable after an append. */
  ghost function AfterSync(s: Fs, j: Journal, d: Journal, f: nat, data: seq<byte>): Journal
    requires f < 4 && |data| <= 65528
  {
    if !Admitted(|data|) then d
    else if s.settings[f].sync then AfterAppend(s, j, f, data)
    else if s.dirty && ENTRY_SIZE + |data| + s.header.offset > 512 then j
    else d
  }

  /** The append up to, not including, its own sync: the live journal ... */
  lemma LiveBeforeSync(s: Fs, j: Journal, f: nat, data: seq<byte>)
    requires Live(s, j) && Roomy(s) && f < 4 && 1 <= |data| <= MAX_PAYLOAD && Allocate(s, f, ENTRY_SIZE + |data|).ok
    ensures var a := Allocate(s, f, ENTRY_SIZE + |data|);
            var p := Put(a.fs, f, data);
            && Live(p, AfterAppend(s, j, f, data)) && Coherent(a.fs) && a.fs.cached == a.fs.header.block
            && a.fs.buffer == View(a.fs, a.fs.header.block)
            && p.settings == s.settings && p.dirty && p.card == a.fs.card
            && p.header.generation == a.fs.header.generation
  {
    hide Allocate, Put, Live, Arrive, Coherent;
    LiveAllocate(s, j, f, ENTRY_SIZE + |data|);
    var a := Allocate(s, f, ENTRY_SIZE + |data|);
    var k := Reached(j, s.header.block, a.fs.header.block);
    LiveIsCoherent(a.fs, k);
    LivePut(a.fs, k, f, data);
    assert NewRec(a.fs, f, data) == NewRec(s, f, data);
    PutFacts(a.fs, f, data);
  }

  lemma ArriveGeneration(s: Fs, move: bool)
    requires Coherent(s) && Protocol(s) && Arrive(s, move).ok && s.header.generation < MAX32 - 1
    ensures Arrive(s, move).fs.header.generation < MAX32 && Protocol(Arrive(s, move).fs)
  {
    hide Arrive, Protocol, Stored, Fsync;
    ArriveHolds(s, move);
  }

  lemma AllocateArrives(s: Fs, j: Journal, f: nat, required: nat)
    requires Live(s, j) && Roomy(s) && f < 4 && 8 <= required <= 512
    ensures Allocate(s, f, required) == Arrive(s, required + s.header.offset > 512)
  {
    LiveAllocate(s, j, f, required);
  }

  /** ... and the durable one. */
  lemma KeptBeforeSync(s: Fs, j: Journal, d: Journal, f: nat, data: seq<byte>)
    requires Live(s, j) && s.header.generation < MAX32 - 1 && Roomy(s)
    requires f < 4 && 1 <= |data| <= MAX_PAYLOAD && Allocate(s, f, ENTRY_SIZE + |data|).ok
    requires Secured(s, d, ENTRY_SIZE + |data| + s.header.offset > 512)
    ensures var p := Put(Allocate(s, f, ENTRY_SIZE + |data|).fs, f, data);
            && Kept(p, if s.dirty && ENTRY_SIZE + |data| + s.header.offset > 512 then j else d)
            && p.header.generation < MAX32
  {
    hide Allocate, Put, Live, Kept, Arrive, Coherent, AfterAppend, Fsync, View, Roomy;
    LiveIsCoherent(s, j);
    var required := ENTRY_SIZE + |data|;
    var move := required + s.header.offset > 512;
    AllocateArrives(s, j, f, required);
    KeptArrive(s, j, d, move);
    ArriveGeneration(s, move);
    LiveBeforeSync(s, j, f, data);
    KeptPut(Allocate(s, f, required).fs, if s.dirty && move then j else d, f, data);
  }

  /** Must an append of `data` leave the current block? */
  predicate Moves(s: Fs, data: seq<byte>) {
    ENTRY_SIZE + |data| + s.header.offset > 512
  }

  /** Does an append sync what was in the buffer? */
  predicate Syncs(s: Fs, f: nat, data: seq<byte>)
    requires f < 4
  {
    s.settings[f].sync || Moves(s, data)
  }

  /** The header protocol holds just before an append's own sync. */
  lemma ProtocolBeforeSync(s: Fs, j: Journal, f: nat, data: seq<byte>)
    requires Live(s, j) && Protocol(s) && Roomy(s) && s.header.generation < MAX32 - 1
    requires f < 4 && 1 <= |data| <= MAX_PAYLOAD && Allocate(s, f, ENTRY_SIZE + |data|).ok
    ensures var p := Put(Allocate(s, f, ENTRY_SIZE + |data|).fs, f, data);
            Protocol(p) && p.header.generation < MAX32
  {
    hide Live, Allocate, Put, Coherent, Protocol, Roomy, Arrive, AfterAppend;
    LiveIsCoherent(s, j);
    var required := ENTRY_SIZE + |data|;
    var a := Allocate(s, f, required).fs;
    assert Protocol(a) && a.header.generation < MAX32 by {
      AllocateArrives(s, j, f, required);
      ArriveGeneration(s, required + s.header.offset > 512);
    }
    assert Coherent(a) && a.cached == a.header.block by { LiveBeforeSync(s, j, f, data); }
    PutProtocol(a, f, data);
  }

  lemma PutProtocol(s: Fs, f: nat, data: seq<byte>)
    requires Coherent(s) && Protocol(s) && s.cached == s.header.block
    requires f < 4 && 1 <= |data| <= MAX_PAYLOAD && s.header.offset + ENTRY_SIZE + |data| <= 512
    ensures Protocol(Put(s, f, data)) && Put(s, f, data).header.generation == s.header.generation
  {
    hide Put, Coherent, Leads;
    PutFacts(s, f, data);
    ProtocolFrame(s, Put(s, f, data));
  }

  /** The append of a sync file makes everything durable, whatever was before. */
  lemma SyncInPlace(s: Fs, j: Journal, d: Journal, f: nat, data: seq<byte>)
    requires Live(s, j) && Protocol(s) && Working(s.card) && s.header.generation < MAX32 - 1 && Roomy(s)
    requires f < 4 && 1 <= |data| <= MAX_PAYLOAD && s.settings[f].sync
    ensures Kept(Append(s, f, data).fs, AfterAppend(s, j, f, data))
  {
    hide Allocate, Fsync, Put, Live, Kept, Working, Coherent, AfterAppend, Roomy, Protocol;
    AllocateAccepts(s, j, f, ENTRY_SIZE + |data|);
    LiveBeforeSync(s, j, f, data);
    ProtocolBeforeSync(s, j, f, data);
    var a := Allocate(s, f, ENTRY_SIZE + |data|);
    PutAccepts(a.fs, f, data);
    KeptFsync(Put(a.fs, f, data), AfterAppend(s, j, f, data), d);
  }

  lemma KeptAppend(s: Fs, j: Journal, d: Journal, f: nat, data: seq<byte>)
    requires Live(s, j) && Working(s.card) && s.header.generation < MAX32 - 1 && Roomy(s)
    requires f < 4 && |data| <= 65528 && Secured(s, d, Admitted(|data|) && Syncs(s, f, data))
    ensures Kept(Append(s, f, data).fs, AfterSync(s, j, d, f, data))
  {
    hide Allocate, Fsync, Put, Live, Kept, Working, Coherent, AfterAppend, Roomy, Protocol;
    if Admitted(|data|) {
      if s.settings[f].sync {
        SyncInPlace(s, j, d, f, data);
      } else {
        AllocateAccepts(s, j, f, ENTRY_SIZE + |data|);
        LiveBeforeSync(s, j, f, data);
        KeptBeforeSync(s, j, d, f, data);
      }
    }
  }

  lemma KeptTruncate(s: Fs, d: Journal, f: nat)
    requires Kept(s, d) && f < 4
    ensures Kept(Truncate(s, f), d)
  {
    hide Full, Tracks, Leads, HeaderFrom, Slot;
    ProtocolFrame(s, Truncate(s, f));
    KeptFrame(s, d, Truncate(s, f));
  }

  lemma KeptFlush(s: Fs, j: Journal, time: u32)
    requires Live(s, j) && Protocol(s) && Working(s.card) && s.header.generation < MAX32
    ensures Kept(Flush(s, time).fs, j)
  {
    hide Flush, Tracks, Full, Protocol, Stored;
    LiveFlush(s, j, time);
    FlushHolds(s, time);
    CleanIsKept(Flush(s, time).fs, j);
  }

  lemma KeptTouch(s: Fs, j: Journal, time: u32)
    requires Live(s, j) && Protocol(s) && Working(s.card) && !s.dirty
    ensures Kept(Touch(s, time).fs, j)
  {
    hide Touch, Tracks, Full, Protocol, Stored;
    LiveTouch(s, j, time);
    TouchWorks(s, time);
    TouchProtocol(s, time);
    CleanIsKept(Touch(s, time).fs, j);
  }

  lemma KeptLoad(s: Fs, d: Journal, block: u32)
    requires Coherent(s) && Kept(s, d) && (!s.dirty || s.cached == block)
    ensures Kept(BlockEnsure(s, block).fs, d)
  {
    hide Full, Tracks, Leads, HeaderFrom, Slot;
    EnsureKeeps(s, block);
    ProtocolFrame(s, BlockEnsure(s, block).fs);
    KeptFrame(s, d, BlockEnsure(s, block).fs);
  }

  // ----- losing power between operations -----

  /** Power comes back: the same blocks under a freshly configured filesystem. */
  function Reboot(s: Fs, config: Fs): Fs {
    Initialize(config.(card := Card(s.card.blocks, [])), false, [0, 0, 0, 0]).fs
  }

  lemma NameDescribes(file: FileHeader, name: Name, j: Journal, f: nat)
    requires f < 4 && Describes(file, j, f)
    ensures Describes(file.(name := name), j, f)
  {
    hide Encode, Upto, Off, Lag;
  }

  lemma NamesTrack(h: Header, j: Journal, names: Files)
    requires Tracks(h, j)
    ensures Tracks(WithNames(h, names), j)
  {
    hide Encode, Describes;
    forall f | 0 <= f < 4
      ensures Describes(WithNames(h, names).files[f], j, f)
    {
      NameDescribes(h.files[f], names[f].name, j, f);
    }
  }

  /** Rebooting brings back exactly the durable journal. */
  lemma RebootRestores(s: Fs, d: Journal, config: Fs)
    requires Kept(s, d) && Pristine(config)
    ensures var t := Reboot(s, config);
            Live(t, d) && Kept(t, d) && Working(t.card) && t.settings == config.settings
            && t.header.generation == s.header.generation
  {
    hide Full, Describes, Encode, Initialize, HeaderFrom, Slot, SlotValid;
    var boot := config.(card := Card(s.card.blocks, []));
    var t := Reboot(s, config);
    InitializeRestores(s, boot, [0, 0, 0, 0]);
    RebootKeeps(s, config);
    NamesTrack(Stored(s), d, config.header.files);
    assert Stored(t) == Stored(s);
    assert Live(t, d) by {
      forall b | 8000 <= b < |t.card.blocks|
        ensures Full(View(t, b), Recs(d.log, b))
      {
        assert View(t, b) == s.card.blocks[b];
      }
    }
    KeptFrame(s, d, t);
  }

  lemma RebootKeeps(s: Fs, config: Fs)
    requires Protocol(s) && Pristine(config)
    ensures var t := Reboot(s, config);
            t.settings == config.settings && t.numberOfBlocks == |s.card.blocks| && Working(t.card)
  {
    hide HeaderFrom, HeaderBytes, Splice, SlotValid, Slot;
    LeaderIsNewest(s.card.blocks[0], s.headerIndex, s.header.generation);
  }

  // ----- what is on the card -----

  /** `p` is what the card holds of file `f`. */
  ghost predicate Lands(s: Fs, j: Journal, n: nat, f: nat, p: Payloads)
    requires f < 4
  {
    && n <= |Last(j.log)| && 8000 <= s.header.files[f].startBlock < 8000 + |j.log|
    && p == Data(Landed(s.header.files[f], j, n, f))
  }

  /** With nothing left in the buffer, the card holds all of a file. */
  lemma LandsAll(s: Fs, j: Journal, f: nat)
    requires Live(s, j) && f < 4
    ensures Lands(s, j, |Last(j.log)|, f, j.contents[f])
  {
    hide Live, Describes, Landed, Data, Waiting;
    LiveDescribes(s, j, f);
    var file, n := s.header.files[f], |Last(j.log)|;
    ContentsSplit(file, j, n, f);
    NoneWaits(file, j, f);
  }

  lemma NoneWaits(file: FileHeader, j: Journal, f: nat)
    ensures Data(Waiting(file, j, |Last(j.log)|, f)) == []
  {
  }

  /** An empty file has nothing on the card. */
  lemma LandsNone(s: Fs, j: Journal, n: nat, f: nat)
    requires Live(s, j) && f < 4 && n <= |Last(j.log)| && j.contents[f] == []
    ensures Lands(s, j, n, f, [])
  {
    hide Live, Describes, Landed, Data, Waiting;
    LiveDescribes(s, j, f);
    ContentsSplit(s.header.files[f], j, n, f);
  }

  lemma LandsFrame(s: Fs, j: Journal, t: Fs, k: Journal, n: nat, f: nat, p: Payloads)
    requires f < 4 && Lands(s, j, n, f, p) && SameLife(s.header.files[f], t.header.files[f])
    requires |k.log| == |j.log| && n <= |Last(k.log)| && Part(k.log, n) == Part(j.log, n)
    ensures Lands(t, k, n, f, p)
  {
  }

  /** Another record leaves what is on the card as it was. */
  lemma PartAdded(j: Journal, r: Rec, n: nat)
    requires n <= |Last(j.log)|
    ensures n <= |Last(Added(j, r).log)| && Part(Added(j, r).log, n) == Part(j.log, n)
  {
    var rs := Last(j.log);
    assert (rs + [r])[..n] == rs[..n];
  }

  /** An arrival that finds unsynced entries and stays changes nothing; any
      other leaves a clean buffer. */
  lemma ArrivesAt(s: Fs, j: Journal, move: bool)
    requires Live(s, j) && Working(s.card) && (move ==> Roomy(s))
    ensures var a := Arrive(s, move).fs;
            var k := Reached(j, s.header.block, a.header.block);
            && Live(a, k) && a.header.files == s.header.files
            && k == (if move then Moved(j) else j)
            && (if s.dirty && !move then a == s else !a.dirty)
  {
    LiveIsCoherent(s, j);
    hide Live, Arrive, Fsync, Working, Coherent, Roomy;
    LiveArrive(s, j, move);
    ArriveStores(s, move);
    ArriveWorks(s, move);
    FsyncKeeps(s);
  }

  /** How many records of the last block are on the card after an arrival. */
  ghost function ArrivalCount(s: Fs, j: Journal, n: nat, move: bool): nat {
    if move then 0 else if s.dirty then n else |Last(j.log)|
  }

  lemma ArrivalWritten(s: Fs, j: Journal, n: nat, move: bool)
    requires Live(s, j) && Written(s, j, n) && Working(s.card) && (move ==> Roomy(s))
    ensures var a := Arrive(s, move).fs;
            Written(a, Reached(j, s.header.block, a.header.block), ArrivalCount(s, j, n, move))
  {
    hide Live, Arrive, Full, Working, Roomy;
    ArrivesAt(s, j, move);
    var a := Arrive(s, move).fs;
    if !(s.dirty && !move) { WrittenClean(a, Reached(j, s.header.block, a.header.block)); }
  }

  lemma ArrivalLands(s: Fs, j: Journal, n: nat, move: bool, g: nat, p: Payloads)
    requires Live(s, j) && Written(s, j, n) && Working(s.card) && (move ==> Roomy(s)) && g < 4 && Lands(s, j, n, g, p)
    ensures var a := Arrive(s, move).fs;
            Lands(a, Reached(j, s.header.block, a.header.block), ArrivalCount(s, j, n, move), g,
                  if s.dirty && move then j.contents[g] else p)
  {
    hide Live, Arrive, Full, Working, Roomy, Landed, Data;
    ArrivesAt(s, j, move);
    var a := Arrive(s, move).fs;
    if !(s.dirty && !move) { LandsAll(a, Reached(j, s.header.block, a.header.block), g); }
    if !s.dirty { LandsAll(s, j, g); }
  }

  lemma PutWritten(s: Fs, j: Journal, n: nat, f: nat, data: seq<byte>)
    requires Coherent(s) && Written(s, j, n) && s.cached == s.header.block
    requires f < 4 && 1 <= |data| <= MAX_PAYLOAD && s.header.offset + ENTRY_SIZE + |data| <= 512
    ensures Written(Put(s, f, data), Added(j, NewRec(s, f, data)), n)
  {
    hide Full, Put, Coherent;
    PutFacts(s, f, data);
    PartAdded(j, NewRec(s, f, data), n);
  }

  lemma PutLands(s: Fs, j: Journal, n: nat, f: nat, data: seq<byte>, g: nat, p: Payloads)
    requires f < 4 && 1 <= |data| <= MAX_PAYLOAD && s.header.offset + ENTRY_SIZE + |data| <= 512
    requires g < 4 && Lands(s, j, n, g, p)
    ensures Lands(Put(s, f, data), Added(j, NewRec(s, f, data)), n, g, p)
  {
    hide Put, Landed, Data;
    PutLife(s, f, data, g);
    PartAdded(j, NewRec(s, f, data), n);
    LandsFrame(s, j, Put(s, f, data), Added(j, NewRec(s, f, data)), n, g, p);
  }

  /** An append that does not sync by itself is an arrival and a write to the buffer. */
  lemma AppendIsPut(s: Fs, j: Journal, f: nat, data: seq<byte>)
    requires Live(s, j) && Working(s.card) && Roomy(s) && f < 4 && 1 <= |data| <= MAX_PAYLOAD && !s.settings[f].sync
    ensures var a := Arrive(s, ENTRY_SIZE + |data| + s.header.offset > 512).fs;
            && Coherent(a) && a.cached == a.header.block && a.header.offset + ENTRY_SIZE + |data| <= 512
            && Append(s, f, data).fs == Put(a, f, data)
            && AfterAppend(s, j, f, data) == Added(Reached(j, s.header.block, a.header.block), NewRec(a, f, data))
  {
    hide Live, Allocate, Put, Working, Coherent, Arrive, Roomy, Fsync;
    var required := ENTRY_SIZE + |data|;
    AllocateAccepts(s, j, f, required);
    LiveAllocate(s, j, f, required);
    LiveBeforeSync(s, j, f, data);
  }

  /** It leaves on the card what the arrival found there. */
  lemma AppendWrites(s: Fs, j: Journal, n: nat, f: nat, data: seq<byte>)
    requires Live(s, j) && Written(s, j, n) && Working(s.card) && Roomy(s) && f < 4
    requires 1 <= |data| <= MAX_PAYLOAD && !s.settings[f].sync
    ensures var m := ArrivalCount(s, j, n, ENTRY_SIZE + |data| + s.header.offset > 512);
            Written(Append(s, f, data).fs, AfterAppend(s, j, f, data), m)
  {
    hide *;
    var move := ENTRY_SIZE + |data| + s.header.offset > 512;
    AppendIsPut(s, j, f, data);
    ArrivalWritten(s, j, n, move);
    var a := Arrive(s, move).fs;
    PutWritten(a, Reached(j, s.header.block, a.header.block), ArrivalCount(s, j, n, move), f, data);
  }

  lemma AppendLandsOne(s: Fs, j: Journal, n: nat, f: nat, data: seq<byte>, g: nat, p: Payloads)
    requires Live(s, j) && Written(s, j, n) && Working(s.card) && Roomy(s) && f < 4 && g < 4 && Lands(s, j, n, g, p)
    requires 1 <= |data| <= MAX_PAYLOAD && !s.settings[f].sync
    ensures var move := ENTRY_SIZE + |data| + s.header.offset > 512;
            Lands(Append(s, f, data).fs, AfterAppend(s, j, f, data), ArrivalCount(s, j, n, move), g,
                  if s.dirty && move then j.contents[g] else p)
  {
    hide *;
    var move := ENTRY_SIZE + |data| + s.header.offset > 512;
    AppendIsPut(s, j, f, data);
    ArrivalLands(s, j, n, move, g, p);
    var a := Arrive(s, move).fs;
    PutLands(a, Reached(j, s.header.block, a.header.block), ArrivalCount(s, j, n, move), f, data, g,
             if s.dirty && move then j.contents[g] else p);
  }

  // ----- what a loss of power leaves -----

  /** Started again on these blocks, every file reads back as `saved`. */
  ghost predicate Leaves(s: Fs, saved: seq<Payloads>)
    requires |saved| == 4
  {
    && Ring(s) && 8000 <= Stored(s).block <= s.header.block
    && forall f :: 0 <= f < 4 ==>
         InRange(s.card.blocks, CreateToken(Stored(s), f))
         && Data(Remaining(Versions(Stored(s)), s.card.blocks, CreateToken(Stored(s), f))) == saved[f]
  }

  lemma LeavesFrame(s: Fs, saved: seq<Payloads>, t: Fs)
    requires |saved| == 4 && Leaves(s, saved) && Ring(t) && t.card.blocks == s.card.blocks
    requires t.headerIndex == s.headerIndex && t.header.block == s.header.block
    ensures Leaves(t, saved)
  {
    hide Remaining, Data;
  }

  /** The stored header of a kept state leads to the durable contents. */
  lemma KeptLeaves(s: Fs, d: Journal)
    requires Kept(s, d)
    ensures Leaves(s, d.contents)
  {
    KeptRing(s, d);
    KeptCarried(s, d, s.card.blocks);
    hide Full, Protocol, Remaining, Data, Carried, Kept, Tracks, Stored, InRange;
    forall f | 0 <= f < 4
      ensures InRange(s.card.blocks, CreateToken(Stored(s), f))
              && Data(Remaining(Versions(Stored(s)), s.card.blocks, CreateToken(Stored(s), f))) == d.contents[f]
    {
      ReadsContents(s.card.blocks, Stored(s), d, f);
    }
  }

  lemma KeptRing(s: Fs, d: Journal)
    requires Kept(s, d)
    ensures Ring(s) && 8000 <= Stored(s).block <= s.header.block && Tracks(Stored(s), d)
  {
    hide Describes, Encode, Full, Stored, Protocol;
  }

  /** Overwriting the current block, even torn, keeps the durable journal readable. */
  lemma KeptCarried(s: Fs, d: Journal, blocks: Blocks)
    requires Kept(s, d) && |blocks| == |s.card.blocks|
    requires forall b :: 8000 <= b < |blocks| && b != s.header.block ==> blocks[b] == s.card.blocks[b]
    requires var w := Stored(s);
             w.block == s.header.block && w.offset <= 512 ==>
               blocks[s.header.block][..w.offset] == s.card.blocks[s.header.block][..w.offset]
    ensures Carried(blocks, d)
  {
    hide Full, Encode, Describes, Protocol, Stored;
    var w, top := Stored(s), Top(d.log);
    var rs := d.log[top];
    assert rs[..|rs|] == rs;
    forall i | 0 <= i <= top
      ensures Full(s.card.blocks[8000 + i], d.log[i])
    {
      assert Recs(d.log, 8000 + i) == d.log[i];
    }
    FullHolds(s.card.blocks[8000 + top], rs);
  }

  lemma SameCarried(a: Blocks, b: Blocks, d: Journal)
    requires Carried(a, d) && |a| == |b| && forall i :: 8000 <= i < |a| ==> a[i] == b[i]
    ensures Carried(b, d)
  {
    hide Full, Holds;
  }

  /** The current block begins with what the stored journal has of it. */
  lemma CurrentBegins(s: Fs, j: Journal, d: Journal)
    requires Live(s, j) && Kept(s, d) && s.dirty
    ensures Recs(d.log, s.header.block) <= Recs(j.log, s.header.block)
    ensures Stored(s).block < s.header.block ==> Recs(d.log, s.header.block) == []
  {
    hide Describes, Encode, Protocol, Stored, RecBytes, Carries;
    var hb := s.header.block;
    var rs, old_ := Recs(j.log, hb), Recs(d.log, hb);
    assert Full(View(s, hb), rs) && Full(s.card.blocks[hb], old_);
    if Stored(s).block == hb {
      assert s.buffer[..|Encode(old_)|] == s.card.blocks[hb][..|Encode(old_)|];
      ChainsDecode(s.buffer, old_, rs);
    }
  }

  /** A touch leaves the cache, the settings and the place in the log alone. */
  lemma TouchKeeps(s: Fs, time: u32)
    ensures var t := Touch(s, time).fs;
            && t.dirty == s.dirty && t.settings == s.settings && t.headerIndex == s.headerIndex
            && t.header.block == s.header.block && t.numberOfBlocks == s.numberOfBlocks
  {
    hide HeaderBytes, Splice, HeaderBody, Crc.Crc16, Write;
  }

  /** A touch writes block 0 and nothing else. */
  lemma TouchCard(s: Fs, time: u32)
    ensures |Touch(s, time).fs.card.blocks| == |s.card.blocks|
    ensures forall b :: 0 < b < |s.card.blocks| ==> Touch(s, time).fs.card.blocks[b] == s.card.blocks[b]
  {
    hide HeaderBytes, Splice, Seal;
  }

  /** After a touch the stored header describes the live volume, but of that
      only what is on the card can be read. */
  lemma TouchLeaves(s: Fs, j: Journal, n: nat, time: u32, saved: seq<Payloads>)
    requires Live(s, j) && Written(s, j, n) && Protocol(s) && Touch(s, time).ok
    requires |saved| == 4 && forall f :: 0 <= f < 4 ==> Lands(s, j, n, f, saved[f])
    ensures Leaves(Touch(s, time).fs, saved)
  {
    hide Tracks, Full, Touch, Protocol, Stored, Landed, Data, Remaining, Slot;
    var t := Touch(s, time).fs;
    TouchProtocol(s, time);
    TouchCard(s, time);
    LiveTouch(s, j, time);
    TracksFrame(s.header, j, t.header);
    WrittenBlocks(s, j, n);
    forall f | 0 <= f < 4
      ensures InRange(t.card.blocks, CreateToken(t.header, f))
              && Data(Remaining(Versions(t.header), t.card.blocks, CreateToken(t.header, f))) == saved[f]
    {
      ScanLanded(t.card.blocks, t.header, j, n, f);
    }
  }

  lemma RebootReads(s: Fs, saved: seq<Payloads>, config: Fs)
    requires |saved| == 4 && Protocol(s) && Leaves(s, saved) && Pristine(config)
    ensures var u := Reboot(s, config);
            && Ring(u) && !u.dirty && u.header == WithNames(Stored(s), config.header.files)
            && u.card.blocks == s.card.blocks && Working(u.card)
            && forall f :: 0 <= f < 4 ==> Reads(u, f, saved[f])
  {
    hide Initialize, Remaining, Data, Protocol, Stored, Slot;
    InitializeRestores(s, config.(card := Card(s.card.blocks, [])), [0, 0, 0, 0]);
    RebootKeeps(s, config);
    var u := Reboot(s, config);
    forall f | 0 <= f < 4
      ensures Reads(u, f, saved[f])
    {
      assert CreateToken(u.header, f) == CreateToken(Stored(s), f);
    }
  }

  lemma KeptIsProtocol(s: Fs, d: Journal)
    requires Kept(s, d)
    ensures Protocol(s)
  {
  }

  lemma RebootClean(s: Fs, d: Journal, config: Fs)
    requires Kept(s, d) && Pristine(config)
    ensures !Reboot(s, config).dirty
  {
    KeptIsProtocol(s, d);
    hide Initialize, Kept, Protocol;
    InitializeRestores(s, config.(card := Card(s.card.blocks, [])), [0, 0, 0, 0]);
  }

}
