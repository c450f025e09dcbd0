/** A crash between the two writes of a sync, start-up, and the next append. */
module HalfSync {
  import opened Bytes
  import opened Header
  import opened Entry
  import opened Card
  import opened Fs
  import opened Cache
  import opened HeaderProtocol
  import opened Layout
  import opened Scan
  import opened ScanLog
  import opened Journal
  import opened LiveVolume
  import opened Runs
  import opened Unsynced
  import opened Landing
  import opened Uncounted
  import opened Durable
  import opened Histories
  import opened Crash

  /** The live log as far as two blocks behind the stored one. */
  function CardLog(j: Journal, top: nat): (all: Log)
    ensures |all| == top + 3
  {
    seq(top + 3, i requires 0 <= i < top + 3 => Recs(j.log, 8000 + i))
  }

  /** Blocks before the current one hold what the stored journal says they hold. */
  lemma EarlierSame(s: Fs, j: Journal, d: Journal, b: nat)
    requires Live(s, j) && Kept(s, d) && 8000 <= b < |s.card.blocks| && b != s.header.block
    ensures Recs(j.log, b) == Recs(d.log, b)
  {
    hide Full, Tracks, Protocol, Stored, Trails;
    assert View(s, b) == s.card.blocks[b];
    FullUnique(s.card.blocks[b], Recs(j.log, b), Recs(d.log, b));
  }

  /** A log that differs from that of `d` in one block only, at or behind its last, and there goes on. */
  lemma GoesOn(all: Log, d: Journal, h: nat)
    requires |all| == |d.log| + 2 && Top(d.log) <= h
    requires forall i :: 0 <= i < |all| && i != h ==> all[i] == Recs(d.log, 8000 + i)
    requires h < |all| ==> Recs(d.log, 8000 + h) <= all[h]
    ensures Surpasses(all, d)
  {
    var top := Top(d.log);
    assert Recs(d.log, 8000 + top) == d.log[top];
    assert Recs(d.log, 8000 + top + 1) == [] && Recs(d.log, 8000 + top + 2) == [];
    forall i | 0 <= i < top
      ensures d.log[i] == all[i]
    {
      assert Recs(d.log, 8000 + i) == d.log[i];
    }
  }

  /** The live log goes on behind the stored one. */
  lemma CardSurpasses(s: Fs, j: Journal, d: Journal)
    requires Live(s, j) && Kept(s, d) && s.dirty && Stored(s).block + 4 < |s.card.blocks|
    ensures Surpasses(CardLog(j, Top(d.log)), d)
  {
    hide Live, Kept, Tracks, Stored, Surpasses, Recs;
    KeptRing(s, d);
    StoredBlock(s, d);
    var hb, all := s.header.block, CardLog(j, Top(d.log));
    CurrentBegins(s, j, d);
    forall i | 0 <= i < |all| && i != hb - 8000
      ensures all[i] == Recs(d.log, 8000 + i)
    {
      EarlierSame(s, j, d, 8000 + i);
    }
    GoesOn(all, d, hb - 8000);
  }

  lemma StoredBlock(s: Fs, d: Journal)
    requires Kept(s, d)
    ensures Stored(s).block == 8000 + Top(d.log)
  {
    hide Describes, Encode, Full, Protocol, Stored;
  }

  /** Start-up on a card whose newest slot is `i`. */
  lemma RebootAdopts(x: Fs, i: nat, config: Fs)
    requires |x.card.blocks| > 0 && i < 2 && Newest(x.card.blocks[0]) == i && Pristine(config)
    ensures var u := Reboot(x, config);
            && u.header == WithNames(HeaderFrom(Slot(x.card.blocks[0], i)), config.header.files)
            && !u.dirty && u.card == Card(x.card.blocks, []) && u.numberOfBlocks == |x.card.blocks| && u.cached == 0
            && u.settings == config.settings
  {
    hide HeaderFrom, HeaderBytes, Splice, Slot, Newest;
  }

  /** The data of a sync was written, its header is not trusted: start-up leaves
      a card that bears the live log under the stored header. */
  lemma CrashLeavesOverfull(s: Fs, j: Journal, d: Journal, config: Fs)
    requires Live(s, j) && Kept(s, d) && s.dirty && Passes(s.card, s.header.block) && Pristine(config)
    requires |Fsync(s).fs.card.blocks| > 0 && Newest(Fsync(s).fs.card.blocks[0]) == s.headerIndex
    requires Stored(s).block + 4 < |s.card.blocks|
    ensures var u := Reboot(Fsync(s).fs, config);
            u.header == WithNames(Stored(s), config.header.files) && u.settings == config.settings
            && Overfull(u, d, CardLog(j, Top(d.log)))
  {
    KeptRing(s, d);
    StoredBlock(s, d);
    LiveIsCoherent(s, j);
    hide Live, Kept, Tracks, Fsync, Reboot, Newest, Slot, Stored, Surpasses, Coherent, Bears;
    var c, u, all := Fsync(s).fs.card.blocks, Reboot(Fsync(s).fs, config), CardLog(j, Top(d.log));
    SyncLeaves(s);
    RebootAdopts(Fsync(s).fs, s.headerIndex, config);
    NamesTrack(Stored(s), d, config.header.files);
    CardSurpasses(s, j, d);
    ViewBears(s, j, c, Top(d.log));
    IdleAgain(s, u, c);
  }

  /** What a sync whose data write passed leaves on the card. */
  lemma SyncLeaves(s: Fs)
    requires Coherent(s) && s.dirty && Passes(s.card, s.header.block)
    ensures var c := Fsync(s).fs.card.blocks;
            && |c| == |s.card.blocks| > 0 && (forall b :: 0 < b < |c| ==> c[b] == View(s, b))
            && HeaderFrom(Slot(c[0], s.headerIndex)) == Stored(s)
  {
    hide Fsync, HeaderWrite, HeaderFrom, Slot, Drained;
    FsyncCards(s);
    DirtyFsync(s);
    DrainedIndex(s);
    OtherSlotSafe(Drained(s));
  }

  lemma ViewBears(s: Fs, j: Journal, c: Blocks, top: nat)
    requires Live(s, j) && |c| == |s.card.blocks| && (forall b :: 0 < b < |c| ==> c[b] == View(s, b))
             && 8000 + top + 4 < |c|
    ensures Bears(c, CardLog(j, top))
  {
    hide Full, Tracks;
  }

  lemma IdleAgain(s: Fs, u: Fs, c: Blocks)
    requires Ring(s) && |c| == |s.card.blocks| && u.card == Card(c, []) && u.numberOfBlocks == |c| && u.cached == 0
             && !u.dirty
    requires 8000 <= u.header.block <= s.header.block
    ensures Idle(u)
  {
  }

  /** A crash after the data write of a sync, then start-up, then an append. It
      succeeds; its file reads as saved, then those of its own unsynced records
      that the append stepped over, then the payload, and the size counts the
      payload only. It reads as saved plus the payload if and only if there were
      no such records. The other files read as saved. */
  lemma CrashThenAppend(s: Fs, j: Journal, d: Journal, config: Fs, f: nat, data: seq<byte>)
    requires Live(s, j) && Kept(s, d) && s.dirty && Passes(s.card, s.header.block) && Pristine(config)
    requires |Fsync(s).fs.card.blocks| > 0 && Newest(Fsync(s).fs.card.blocks[0]) == s.headerIndex
    requires Stored(s).block + 4 < |s.card.blocks| && f < 4 && 1 <= |data| <= MAX_PAYLOAD
    ensures var u, all := Reboot(Fsync(s).fs, config), CardLog(j, Top(d.log));
            && |all| == |d.log| + 2 && |Last(d.log)| <= |all[Top(d.log)]|
            && var t, back := Append(u, f, data).fs, Data(Returning(u, d, all, f, ENTRY_SIZE + |data|));
            && Append(u, f, data).ok && Reads(t, f, d.contents[f] + back + [data])
            && t.header.files[f].size == (u.header.files[f].size + |data|) % 0x1_0000_0000
            && (Reads(t, f, d.contents[f] + [data]) <==> back == [])
            && forall g :: 0 <= g < 4 && g != f ==> Reads(t, g, d.contents[g])
  {
    hide Live, Kept, Fsync, Reboot, Overfull, Append, Reads, Returning, Newest, Stored, Slot, Data;
    CrashLeavesOverfull(s, j, d, config);
    NextAppend(Reboot(Fsync(s).fs, config), d, CardLog(j, Top(d.log)), f, data);
  }

  // ----- at one input -----

  /** The data write passes, the header cannot be read: block 0 stays as it is. */
  lemma HeaderNotReached(s: Fs)
    requires s.dirty && s.card.script == [Pass, Fail([])] && 0 < s.header.block < |s.card.blocks|
    ensures Passes(s.card, s.header.block) && |Fsync(s).fs.card.blocks| == |s.card.blocks|
    ensures Fsync(s).fs.card.blocks[0] == s.card.blocks[0]
  {
    hide HeaderBytes, Splice, Seal;
  }

  /** An empty volume with its header stored takes a first record, unsynced. */
  lemma FirstRecord(s: Fs, f: nat, x: seq<byte>)
    requires Live(s, EMPTY_JOURNAL) && Protocol(s) && Stored(s) == s.header && !s.dirty && Working(s.card)
    requires s.header.generation == 1 && Roomy(s) && f < 4 && 1 <= |x| <= MAX_PAYLOAD && !s.settings[f].sync
    ensures var s1, j := Append(s, f, x).fs, Added(EMPTY_JOURNAL, NewRec(s, f, x));
            && Live(s1, j) && Kept(s1, EMPTY_JOURNAL) && Stored(s1) == s.header && s1.dirty && s1.header.block == 8000
            && |s1.card.blocks| == |s.card.blocks|
  {
    CleanIsKept(s, EMPTY_JOURNAL);
    LiveBlock(s, EMPTY_JOURNAL);
    EmptyOffset(s);
    hide Live, Kept, Append, Protocol, Working, Roomy, Put, Stored, AfterAppend;
    LiveAppend(s, EMPTY_JOURNAL, f, x);
    KeptAppend(s, EMPTY_JOURNAL, EMPTY_JOURNAL, f, x);
    AppendIsPut(s, EMPTY_JOURNAL, f, x);
    var a := Arrive(s, false).fs;
    IdleStart(s);
    PutFacts(a, f, x);
    FrameStored(s, Append(s, f, x).fs);
  }

  lemma EmptyOffset(s: Fs)
    requires Live(s, EMPTY_JOURNAL)
    ensures s.header.offset == 0 && Coherent(s)
  {
    hide Describes, Full;
  }

  lemma IdleStart(s: Fs)
    requires Coherent(s) && !s.dirty && Working(s.card)
    ensures var a := Arrive(s, false).fs;
            a.header == s.header && a.headerIndex == s.headerIndex && a.card.blocks == s.card.blocks
  {
  }

  lemma FrameStored(s: Fs, t: Fs)
    requires |s.card.blocks| > 0 && t.card.blocks == s.card.blocks && t.headerIndex == s.headerIndex
    ensures Stored(t) == Stored(s)
  {
  }

  /** One record is on the card and not in the header. Start-up reads nothing;
      the next append succeeds, and then the file reads the lost record first,
      while its size counts the new payload only. */
  lemma LostRecordComesBack(
    boot: Fs, wipe: bool, draws: seq<u16>, f: nat, x: seq<byte>, data: seq<byte>, config: Fs)
    requires Begun(boot, wipe, draws) && |boot.card.blocks| > 8005 && f < 4 && Pristine(config)
    requires !boot.settings[f].sync && 1 <= |x| <= MAX_PAYLOAD && 1 <= |data| <= MAX_PAYLOAD
    ensures var s1 := Append(Initialize(boot, wipe, draws).fs, f, x).fs;
            var u := Reboot(Fsync(Facing(s1, [Pass, Fail([])])).fs, config);
            var t := Append(u, f, data).fs;
            && Append(u, f, data).ok && Reads(t, f, [x] + [data]) && t.header.files[f].size == |data|
  {
    StartIsLive(boot, wipe, draws);
    StartStaysWorking(boot, wipe, draws);
    StartSize(boot, wipe, draws);
    hide Initialize, Begun, Live, Protocol, Stored, Reboot, Append, Reads, Pristine;
    LostFirst(Initialize(boot, wipe, draws).fs, f, x, data, config);
  }

  lemma StartSize(boot: Fs, wipe: bool, draws: seq<u16>)
    requires |draws| == 4 && Initialize(boot, wipe, draws).ok
    ensures |Initialize(boot, wipe, draws).fs.card.blocks| == |boot.card.blocks|
  {
    hide HeaderBytes, Splice, Newest, Seal, HeaderFrom, Slot;
  }

  lemma LostFirst(s: Fs, f: nat, x: seq<byte>, data: seq<byte>, config: Fs)
    requires Live(s, EMPTY_JOURNAL) && Protocol(s) && Stored(s) == s.header && !s.dirty && Working(s.card)
    requires s.header.generation == 1 && |s.card.blocks| > 8005 && f < 4 && Pristine(config) && !s.settings[f].sync
    requires 1 <= |x| <= MAX_PAYLOAD && 1 <= |data| <= MAX_PAYLOAD
    ensures var u := Reboot(Fsync(Facing(Append(s, f, x).fs, [Pass, Fail([])])).fs, config);
            var t := Append(u, f, data).fs;
            && Append(u, f, data).ok && Reads(t, f, [x] + [data]) && t.header.files[f].size == |data|
  {
    hide Live, Kept, Protocol, Stored, Append, Pristine, Working, Roomy, Slot, Reads, Reboot, Fsync, Newest;
    hide Added, NewRec;
    EmptyVolume(s, f);
    FirstRecord(s, f, x);
    var s1, r := Append(s, f, x).fs, NewRec(s, f, x);
    var j, p := Added(EMPTY_JOURNAL, r), Facing(s1, [Pass, Fail([])]);
    FacingKeeps(s1, j, EMPTY_JOURNAL, [Pass, Fail([])]);
    HeaderNotReached(p);
    KeptLeads(p, EMPTY_JOURNAL);
    FrameStored(s1, p);
    LostThenAppend(s, p, r, f, x, data, config);
  }

  lemma LostThenAppend(s: Fs, p: Fs, r: Rec, f: nat, x: seq<byte>, data: seq<byte>, config: Fs)
    requires f < 4 && 1 <= |x| <= MAX_PAYLOAD && 1 <= |data| <= MAX_PAYLOAD && Pristine(config) && r == NewRec(s, f, x)
    requires Live(p, Added(EMPTY_JOURNAL, r)) && Kept(p, EMPTY_JOURNAL) && p.dirty && Passes(p.card, p.header.block)
    requires |Fsync(p).fs.card.blocks| > 0 && Newest(Fsync(p).fs.card.blocks[0]) == p.headerIndex
    requires |p.card.blocks| > 8005 && Stored(p) == s.header && s.header.block == 8000 && s.header.files[f].size == 0
    ensures var u := Reboot(Fsync(p).fs, config);
            var t := Append(u, f, data).fs;
            && Append(u, f, data).ok && Reads(t, f, [x] + [data]) && t.header.files[f].size == |data|
  {
    hide Live, Kept, Stored, Append, Pristine, Reads, Reboot, Fsync, Newest, Overfull, OneTooMany, CardLog;
    hide WithNames, NewRec, Added, Belongs, Slot;
    var u, all := Reboot(Fsync(p).fs, config), CardLog(Added(EMPTY_JOURNAL, r), 0);
    CrashLeavesOverfull(p, Added(EMPTY_JOURNAL, r), EMPTY_JOURNAL, config);
    FirstLog(r);
    BelongsToIt(u, s, r, f, x, config.header.files);
    AppendAfterHalfSync(u, EMPTY_JOURNAL, all, r, false, f, data);
    NoneSaved(x, data);
  }

  lemma BelongsToIt(u: Fs, s: Fs, r: Rec, f: nat, x: seq<byte>, names: Files)
    requires f < 4 && 1 <= |x| <= MAX_PAYLOAD && u.header == WithNames(s.header, names) && r == NewRec(s, f, x)
    ensures Belongs(u, r, f) && r.data == x && u.header.files[f].size == s.header.files[f].size
  {
  }

  lemma FirstLog(r: Rec)
    ensures OneTooMany(EMPTY_JOURNAL, CardLog(Added(EMPTY_JOURNAL, r), 0), r, false)
  {
    var j := Added(EMPTY_JOURNAL, r);
    assert EMPTY_JOURNAL.log == [[]] && j.log == [[] + [r]];
    var all := CardLog(j, 0);
    assert all[0] == Recs(j.log, 8000 + 0) && all[1] == Recs(j.log, 8000 + 1);
  }

  lemma NoneSaved(x: seq<byte>, data: seq<byte>)
    ensures [] + [x] + [data] == [x] + [data]
  {
  }

  lemma EmptyVolume(s: Fs, f: nat)
    requires Live(s, EMPTY_JOURNAL) && |s.card.blocks| > 8005 && f < 4
    ensures Roomy(s) && s.header.files[f].size == 0 && s.header.block == 8000
  {
    hide Full;
    assert Describes(s.header.files[f], EMPTY_JOURNAL, f);
  }

  lemma KeptLeads(s: Fs, d: Journal)
    requires Kept(s, d)
    ensures |s.card.blocks| > 0 && Newest(s.card.blocks[0]) == s.headerIndex
  {
    hide Tracks, Full, Trails, Newest;
    ProtocolLeads(s);
  }
}
