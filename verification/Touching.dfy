/** A touch stores the header before the data it counts. What is then lost with
    the power, and what becomes of later appends. */
module Touching {
  import opened Bytes
  import opened Header
  import opened Entry
  import opened Card
  import opened Fs
  import opened Cache
  import opened HeaderProtocol
  import opened Layout
  import opened Scan
  import opened ScanLog
  import opened Journal
  import opened LiveVolume
  import opened Runs
  import opened Unsynced
  import opened Durable
  import opened Histories

  /** In a live and kept state, some first records of the last block are on the
      card, and the others wait in the buffer. */
  lemma KeptIsWritten(s: Fs, j: Journal, d: Journal) returns (n: nat)
    requires Live(s, j) && Kept(s, d)
    ensures Written(s, j, n)
  {
    n := |Last(j.log)|;
    if s.dirty {
      n := CurrentBlock(s, j, d);
      OtherBlocks(s, j, n);
    } else {
      WrittenClean(s, j);
    }
  }

  lemma CurrentBlock(s: Fs, j: Journal, d: Journal) returns (n: nat)
    requires Live(s, j) && Kept(s, d) && s.dirty
    ensures n <= |Last(j.log)| && Full(s.card.blocks[s.header.block], Last(j.log)[..n])
  {
    hide Live, Kept, Full, Recs;
    LiveIsCoherent(s, j);
    CurrentBegins(s, j, d);
    CurrentRecs(s, j, d);
    var old_ := Recs(d.log, s.header.block);
    n := |old_|;
    assert Last(j.log)[..n] == old_;
  }

  lemma CurrentRecs(s: Fs, j: Journal, d: Journal)
    requires Live(s, j) && Kept(s, d)
    ensures Recs(j.log, s.header.block) == Last(j.log)
    ensures Full(s.card.blocks[s.header.block], Recs(d.log, s.header.block))
  {
    hide Full, Describes, Encode, Protocol, Stored;
  }

  lemma OtherBlocks(s: Fs, j: Journal, n: nat)
    requires Live(s, j) && s.dirty && n <= |Last(j.log)| && Full(s.card.blocks[s.header.block], Last(j.log)[..n])
    ensures Written(s, j, n)
  {
    hide Full, Describes, Encode;
    forall b | 8000 <= b < |s.card.blocks|
      ensures Full(s.card.blocks[b], Recs(Part(j.log, n), b))
    {
      if b != s.header.block {
        assert View(s, b) == s.card.blocks[b] && Recs(Part(j.log, n), b) == Recs(j.log, b);
      } else {
        assert Recs(Part(j.log, n), b) == Last(j.log)[..n];
      }
    }
  }

  /** None of the records that wait in the buffer is of its file's present version. */
  ghost predicate NoneWaiting(h: Header, j: Journal, n: nat) {
    forall k :: n <= k < |Last(j.log)| ==> Last(j.log)[k].version != h.files[Last(j.log)[k].file].version
  }

  /** The payloads of file `f` that a loss of power takes. */
  ghost function Lost(s: Fs, j: Journal, n: nat, f: nat): Payloads
    requires f < 4 && n <= |Last(j.log)|
  {
    Data(Waiting(s.header.files[f], j, n, f))
  }

  lemma LostNothing(s: Fs, j: Journal, n: nat)
    requires n <= |Last(j.log)|
    ensures NoneWaiting(s.header, j, n) <==> forall f :: 0 <= f < 4 ==> Lost(s, j, n, f) == []
  {
    hide Pick;
    var rs := Last(j.log);
    forall f | 0 <= f < 4
      ensures Lost(s, j, n, f) == [] <==>
              forall k :: n <= k < |rs| ==> !(rs[k].file == f && rs[k].version == s.header.files[f].version)
    {
      PickEmpty(rs, 8000 + Top(j.log), n, |rs|, f, s.header.files[f].version);
    }
  }

  /** The saved contents, as a touch leaves them. */
  lemma LandedContents(s: Fs, j: Journal, n: nat) returns (saved: seq<Payloads>)
    requires Live(s, j) && Written(s, j, n)
    ensures |saved| == 4
    ensures forall f :: 0 <= f < 4 ==> Lands(s, j, n, f, saved[f]) && saved[f] + Lost(s, j, n, f) == j.contents[f]
  {
    hide Full, Describes, Encode, Landed, Data, Waiting, Coherent;
    forall f | 0 <= f < 4
      ensures 8000 <= s.header.files[f].startBlock < 8000 + |j.log|
              && Data(Landed(s.header.files[f], j, n, f)) + Lost(s, j, n, f) == j.contents[f]
    {
      ContentsSplit(s.header.files[f], j, n, f);
    }
    saved := [Data(Landed(s.header.files[0], j, n, 0)), Data(Landed(s.header.files[1], j, n, 1)),
              Data(Landed(s.header.files[2], j, n, 2)), Data(Landed(s.header.files[3], j, n, 3))];
  }

  /** The header of `u` counts everything that of `s` counts. */
  ghost predicate StillCounts(s: Fs, u: Fs, names: Files) {
    && u.header.block == s.header.block && u.header.offset == s.header.offset
    && forall f :: 0 <= f < 4 ==> u.header.files[f] == s.header.files[f].(name := names[f].name)
  }

  /** File `f` of `u` reads as it did in `s`, without what waited in the buffer. */
  ghost predicate LacksOne(s: Fs, j: Journal, n: nat, u: Fs, f: nat)
    requires n <= |Last(j.log)| && f < 4
  {
    exists p :: Reads(u, f, p) && p + Lost(s, j, n, f) == j.contents[f]
  }

  /** Each file of `u` has lost exactly the payloads that waited in the buffer
      of `s`, and none lost any if and only if nothing current waited. */
  ghost predicate LacksWaiting(s: Fs, j: Journal, n: nat, u: Fs)
    requires n <= |Last(j.log)|
  {
    && (forall f :: 0 <= f < 4 ==> LacksOne(s, j, n, u, f))
    && ((forall f :: 0 <= f < 4 ==> Reads(u, f, j.contents[f])) <==> NoneWaiting(s.header, j, n))
  }

  lemma ReadsLacking(s: Fs, j: Journal, n: nat, saved: seq<Payloads>, u: Fs)
    requires n <= |Last(j.log)| && |saved| == 4
    requires forall f :: 0 <= f < 4 ==> Reads(u, f, saved[f])
    requires forall f :: 0 <= f < 4 ==> saved[f] + Lost(s, j, n, f) == j.contents[f]
    ensures LacksWaiting(s, j, n, u)
  {
    hide Reads, NoneWaiting, Lost;
    LostNothing(s, j, n);
    forall f | 0 <= f < 4
      ensures LacksOne(s, j, n, u, f)
    {
      assert Reads(u, f, saved[f]) && saved[f] + Lost(s, j, n, f) == j.contents[f];
    }
    forall f | 0 <= f < 4
      ensures Reads(u, f, j.contents[f]) <==> Lost(s, j, n, f) == []
    {
      ReadsAll(u, f, saved[f], Lost(s, j, n, f), j.contents[f]);
    }
    assert NoneWaiting(s.header, j, n) ==> forall f :: 0 <= f < 4 ==> Reads(u, f, j.contents[f]);
    if forall f :: 0 <= f < 4 ==> Reads(u, f, j.contents[f]) {
      assert forall f :: 0 <= f < 4 ==> Lost(s, j, n, f) == [];
    }
  }

  lemma ReadsAll(u: Fs, f: nat, read: Payloads, lost: Payloads, all: Payloads)
    requires f < 4 && Reads(u, f, read) && read + lost == all
    ensures Reads(u, f, all) <==> lost == []
  {
    assert |all| == |read| + |lost|;
  }

  lemma TouchedCounts(s: Fs, t: Fs, u: Fs, time: u32, names: Files)
    requires t.header == s.header.(time := time, crc := t.header.crc) && u.header == WithNames(t.header, names)
    ensures StillCounts(s, u, names)
  {
  }

  lemma TouchedState(s: Fs, j: Journal, n: nat, time: u32, config: Fs)
    requires Live(s, j) && Written(s, j, n) && Protocol(s) && Touch(s, time).ok && Pristine(config)
    ensures var u := Reboot(Touch(s, time).fs, config);
            n <= |Last(j.log)| && StillCounts(s, u, config.header.files) && LacksWaiting(s, j, n, u)
  {
    WrittenBound(s, j, n);
    hide Live, Written, Lands, Leaves, Protocol, Touch, Reboot, Lost, Stored, Slot, NoneWaiting, Reads, Last;
    hide LacksWaiting, StillCounts, WithNames;
    var t := Touch(s, time).fs;
    var saved := LandedContents(s, j, n);
    TouchProtocol(s, time);
    TouchLeaves(s, j, n, time, saved);
    RebootReads(t, saved, config);
    ReadsLacking(s, j, n, saved, Reboot(t, config));
    TouchedCounts(s, t, Reboot(t, config), time, config.header.files);
  }

  /** A touch, then a loss of power. On every live, kept and working state, all
      files read back as they were if and only if no unsynced record of a
      present version was in the buffer; otherwise each lacks exactly its own
      unsynced payloads, while the header still counts them. */
  lemma TouchThenLoss(s: Fs, j: Journal, d: Journal, time: u32, config: Fs) returns (n: nat)
    requires Live(s, j) && Kept(s, d) && Working(s.card) && Pristine(config)
    ensures var u := Reboot(Touch(s, time).fs, config);
            Written(s, j, n) && StillCounts(s, u, config.header.files) && LacksWaiting(s, j, n, u)
  {
    LiveIsCoherent(s, j);
    KeptIsProtocol(s, d);
    hide Live, Kept, Written, StillCounts, LacksWaiting, Protocol, Coherent, Touch, Reboot;
    n := KeptIsWritten(s, j, d);
    TouchWorks(s, time);
    TouchedState(s, j, n, time, config);
  }

  /** The same holds between the two halves of a flush: its touch has been
      written, its data write leaves the block as it was. */
  lemma FlushHalfway(s: Fs, j: Journal, d: Journal, time: u32, config: Fs) returns (n: nat)
    requires Live(s, j) && Kept(s, d) && s.dirty && Pristine(config)
    requires Touch(s, time).ok && NextIo(Touch(s, time).fs.card) == Fail([])
    ensures var u := Reboot(Flush(s, time).fs, config);
            Written(s, j, n) && StillCounts(s, u, config.header.files) && LacksWaiting(s, j, n, u)
  {
    LiveIsCoherent(s, j);
    KeptIsProtocol(s, d);
    HalfFlushed(s, time);
    hide Live, Kept, Written, StillCounts, LacksWaiting, Protocol, Coherent, Touch, Flush;
    n := KeptIsWritten(s, j, d);
    TouchedState(s, j, n, time, config);
  }

  lemma HalfFlushed(s: Fs, time: u32)
    requires Coherent(s) && s.dirty && Touch(s, time).ok && NextIo(Touch(s, time).fs.card) == Fail([])
    ensures Flush(s, time).fs.card.blocks == Touch(s, time).fs.card.blocks
  {
    hide HeaderWrite, Touch;
    var t := Touch(s, time).fs;
    TouchKeeps(s, time);
    TouchCard(s, time);
    var hb := t.header.block;
    assert Mix(t.card.blocks[hb], t.buffer, []) == t.card.blocks[hb];
  }

  /** A read through a dirty cache throws the buffer away: from then on every
      file lacks exactly what waited there, although no power was lost. */
  lemma ReadDropsWaiting(s: Fs, j: Journal, d: Journal, block: u32) returns (n: nat)
    requires Live(s, j) && Kept(s, d) && s.dirty && block != s.cached && BlockEnsure(s, block).ok
    ensures var t := BlockEnsure(s, block).fs;
            Written(s, j, n) && t.header == s.header && !t.dirty && LacksWaiting(s, j, n, t)
  {
    LiveIsCoherent(s, j);
    DroppedState(s, block);
    hide Live, Kept, Written, BlockEnsure, Coherent, LacksWaiting, Lost, Reads, Lands, Last;
    n := KeptIsWritten(s, j, d);
    WrittenBound(s, j, n);
    var t := BlockEnsure(s, block).fs;
    var saved := LandedContents(s, j, n);
    forall f | 0 <= f < 4
      ensures Reads(t, f, saved[f])
    {
      CardReads(s, j, n, t, f, saved[f]);
    }
    ReadsLacking(s, j, n, saved, t);
  }

  lemma DroppedState(s: Fs, block: u32)
    requires Coherent(s) && s.dirty && block != s.cached && BlockEnsure(s, block).ok
    ensures var t := BlockEnsure(s, block).fs;
            t.header == s.header && !t.dirty && t.card.blocks == s.card.blocks && Ring(t)
  {
  }

  lemma CardReads(s: Fs, j: Journal, n: nat, t: Fs, f: nat, p: Payloads)
    requires Live(s, j) && Written(s, j, n) && f < 4 && Lands(s, j, n, f, p)
    requires t.header == s.header && !t.dirty && t.card.blocks == s.card.blocks && Ring(t)
    ensures Reads(t, f, p)
  {
    WrittenBlocks(s, j, n);
    assert Tracks(s.header, j);
    hide Live, Written, Tracks, Bears, Remaining, Data, Landed;
    ScanLanded(s.card.blocks, s.header, j, n, f);
  }

  /** The books after a first record and a touch. */
  lemma FirstRecordTouched(s: Fs, f: nat, data: seq<byte>, time: u32) returns (j: Journal, n: nat, b: Books)
    requires Fresh(s) && s.header.generation == 1 && Roomy(s)
    requires f < 4 && 1 <= |data| <= MAX_PAYLOAD && !s.settings[f].sync
    ensures Booked(Touch(Append(s, f, data).fs, time).fs, j, j, n, b) && b.live[f] == [data] && b.saved[f] == []
  {
    hide Booked, Append, Touch, Roomy, AfterAppend, NextCount, NextKept;
    var b0, e, a := Safe([[], [], [], []]), Perform(AppendTo(f, data)), Append(s, f, data).fs;
    AppendBooked(s, EMPTY_JOURNAL, EMPTY_JOURNAL, 0, b0, f, data);
    var b1 := Account(b0, s, e);
    j, n := AfterAppend(s, EMPTY_JOURNAL, f, data), NextCount(s, EMPTY_JOURNAL, 0, EMPTY_JOURNAL, e);
    TouchBooked(a, j, NextKept(s, EMPTY_JOURNAL, EMPTY_JOURNAL, e), n, b1, time);
    b := b1.(saved := b1.written, exposed := a.dirty);
  }

  lemma FirstRecordLost(s: Fs, f: nat, data: seq<byte>, time: u32, config: Fs)
    requires Fresh(s) && s.header.generation == 1 && Roomy(s)
    requires f < 4 && 1 <= |data| <= MAX_PAYLOAD && !s.settings[f].sync && Pristine(config)
    ensures var t := Touch(Append(s, f, data).fs, time).fs;
            && Reads(t, f, [data]) && t.header.files[f].size == |data|
            && Reads(Reboot(t, config), f, []) && Reboot(t, config).header.files[f].size == |data|
  {
    hide Booked, Append, Touch, Reads, Reboot, Roomy, Stored, Pristine, WithNames, Total;
    var j, n, b := FirstRecordTouched(s, f, data, time);
    var t := Touch(Append(s, f, data).fs, time).fs;
    BookedReads(t, j, j, n, b, config, f);
    FirstRecordStored(s, f, data, time);
    NamesKeepSize(t.header, config.header.files, f);
    TotalOne(data);
  }

  /** One record of a file that is not a sync file, a touch, and the power is
      lost: the header counts the record, the scan does not return it. */
  lemma TouchLosesRecord(boot: Fs, wipe: bool, draws: seq<u16>, f: nat, data: seq<byte>, time: u32, config: Fs)
    requires Begun(boot, wipe, draws) && f < 4 && 1 <= |data| <= MAX_PAYLOAD && Pristine(config)
    requires Roomy(Initialize(boot, wipe, draws).fs) && !Initialize(boot, wipe, draws).fs.settings[f].sync
    ensures var t := Touch(Append(Initialize(boot, wipe, draws).fs, f, data).fs, time).fs;
            && Reads(t, f, [data]) && t.header.files[f].size == |data|
            && Reads(Reboot(t, config), f, []) && Reboot(t, config).header.files[f].size == |data|
  {
    hide Initialize, Booked, Append, Touch, Reads, Reboot, Roomy, Pristine, Blank;
    BegunIsBooked(boot, wipe, draws);
    FirstRecordLost(Initialize(boot, wipe, draws).fs, f, data, time, config);
  }

  lemma NamesKeepSize(h: Header, names: Files, f: nat)
    requires f < 4
    ensures WithNames(h, names).files[f].size == h.files[f].size
  {
  }

  lemma FirstRecordStored(s: Fs, f: nat, data: seq<byte>, time: u32)
    requires Fresh(s) && s.header.generation == 1
    requires f < 4 && 1 <= |data| <= MAX_PAYLOAD
    ensures var t := Touch(Append(s, f, data).fs, time).fs;
            |t.card.blocks| > 0 && Stored(t) == t.header
  {
    LiveIsCoherent(s, EMPTY_JOURNAL);
    hide Live, Kept, Written, Lands, Leaves, Append, Touch, Protocol, Working, Coherent, Stored, Slot, SameView;
    AppendHolds(s, f, data);
    AppendCoherent(s, f, data);
    var a := Append(s, f, data).fs;
    TouchWorks(a, time);
    TouchProtocol(a, time);
    ProtocolLeads(Touch(a, time).fs);
  }

  lemma TotalOne(data: seq<byte>)
    ensures Total([data]) == |data|
  {
    TotalAdded([], data);
    assert [] + [data] == [data];
  }

  lemma BookedReads(s: Fs, j: Journal, d: Journal, n: nat, b: Books, config: Fs, f: nat)
    requires Booked(s, j, d, n, b) && f < 4 && Pristine(config)
    ensures Reads(s, f, b.live[f]) && s.header.files[f].size == Total(b.live[f]) % 0x1_0000_0000
    ensures Reads(Reboot(s, config), f, b.saved[f])
    ensures Reboot(s, config).header == WithNames(Stored(s), config.header.files)
  {
    hide Live, Protocol, Leaves, Lands, Written, Kept, Working, Reboot, Remaining, Data, ViewBlocks, Stored;
    LiveIsCoherent(s, j);
    LiveReads(s, j, f);
    RebootReads(s, b.saved, config);
  }
}
