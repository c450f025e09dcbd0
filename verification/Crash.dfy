/** Losing power in the middle of an operation. A crash at any point is a
    script whose first failing transfer, possibly torn, ends the operation. */
module Crash {
  import opened Bytes
  import Crc
  import opened Header
  import opened Entry
  import opened Card
  import opened Fs
  import opened Cache
  import opened HeaderProtocol
  import opened Layout
  import opened Scan
  import opened Journal
  import opened LiveVolume
  import opened Runs
  import opened Durable
  import opened Unsynced
  import opened Histories

  /** Starting up on these blocks adopts header `h`, and every file then reads
      back exactly `contents`. */
  ghost predicate ComesBack(blocks: Blocks, config: Fs, h: Header, contents: seq<Payloads>)
    requires |contents| == 4
  {
    var o := Initialize(config.(card := Card(blocks, [])), false, [0, 0, 0, 0]);
    && o.ok && o.fs.header == WithNames(h, config.header.files) && !o.fs.dirty && o.fs.card.blocks == blocks
    && forall f :: 0 <= f < 4 ==>
         InRange(blocks, CreateToken(o.fs.header, f))
         && Data(Remaining(Versions(o.fs.header), blocks, CreateToken(o.fs.header, f))) == contents[f]
  }

  lemma AdoptsSlot(blocks: Blocks, i: nat, config: Fs)
    requires |blocks| > 0 && i < 2 && Newest(blocks[0]) == i && Pristine(config)
    ensures var o := Initialize(config.(card := Card(blocks, [])), false, [0, 0, 0, 0]);
            o.ok && o.fs.header == WithNames(HeaderFrom(Slot(blocks[0], i)), config.header.files)
            && !o.fs.dirty && o.fs.card.blocks == blocks
  {
    hide HeaderFrom, HeaderBytes, Splice, Slot, Newest;
  }

  lemma ComesBackFrom(blocks: Blocks, i: nat, h: Header, d: Journal, config: Fs)
    requires |blocks| > 0 && i < 2 && Newest(blocks[0]) == i && h == HeaderFrom(Slot(blocks[0], i))
    requires Tracks(h, d) && Carried(blocks, d) && Pristine(config)
    ensures ComesBack(blocks, config, h, d.contents)
  {
    hide HeaderFrom, Slot, Newest, Tracks, Carried, Remaining, Initialize, InRange;
    AdoptsSlot(blocks, i, config);
    var u := WithNames(h, config.header.files);
    NamesTrack(h, d, config.header.files);
    forall f | 0 <= f < 4
      ensures InRange(blocks, CreateToken(u, f))
              && Data(Remaining(Versions(u), blocks, CreateToken(u, f))) == d.contents[f]
    {
      ReadsContents(blocks, u, d, f);
    }
  }

  /** Which slot start-up trusts when the other one may hold anything. */
  lemma TornSlotDecides(b: Block, i: nat, generation: u32)
    requires i < 2 && SlotValid(Slot(b, i)) && HeaderFrom(Slot(b, i)).generation == generation
    ensures Newest(b) == i <==>
            !SlotValid(Slot(b, 1 - i))
            || HeaderFrom(Slot(b, 1 - i)).generation < generation
            || (HeaderFrom(Slot(b, 1 - i)).generation == generation && i == 1)
  {
    hide SlotValid, HeaderFrom, Slot;
  }

  /** The header a successful sync would store. */
  function NextHeader(s: Fs): Header {
    Seal(Drained(s).header)
  }

  /** A torn slot that passes its checksum is the old slot or the new one. */
  ghost predicate Honest(s: Fs) {
    |s.card.blocks| > 0 ==>
      var torn := Slot(Fsync(s).fs.card.blocks[0], 1 - s.headerIndex);
      SlotValid(torn) ==> torn == Slot(s.card.blocks[0], 1 - s.headerIndex) || torn == HeaderBytes(NextHeader(s))
  }

  /** The blocks during a sync whose data write may have been torn. */
  lemma TornDataCarried(s: Fs, d: Journal, x: Block, mask: seq<bool>)
    requires Coherent(s) && Kept(s, d) && s.dirty
             && (x == s.buffer || x == Mix(s.card.blocks[s.header.block], s.buffer, mask))
    ensures Carried(s.card.blocks[s.header.block := x], d)
  {
    hide Full, Tracks, Protocol, Stored, Carried, Mix;
    var w, old_ := Stored(s), s.card.blocks[s.header.block];
    if w.block == s.header.block { MixKeeps(old_, s.buffer, mask, 0, w.offset); }
    KeptCarried(s, d, s.card.blocks[s.header.block := x]);
  }

  /** The data write failed, or the header was never written: the old header comes back. */
  lemma OldComesBack(s: Fs, d: Journal, blocks: Blocks, config: Fs)
    requires Kept(s, d) && Carried(blocks, d) && |blocks| > 0 && Pristine(config)
    requires Slot(blocks[0], s.headerIndex) == Slot(s.card.blocks[0], s.headerIndex)
    requires SlotValid(Slot(blocks[0], 1 - s.headerIndex)) ==>
               Slot(blocks[0], 1 - s.headerIndex) == Slot(s.card.blocks[0], 1 - s.headerIndex)
    ensures ComesBack(blocks, config, Stored(s), d.contents)
  {
    hide SlotValid, HeaderFrom, Slot, Tracks, Carried, Full, ComesBack;
    LeaderIsNewest(blocks[0], s.headerIndex, s.header.generation);
    ComesBackFrom(blocks, s.headerIndex, Stored(s), d, config);
  }

  /** The new slot is on the card: the new header comes back. */
  lemma NewComesBack(s: Fs, j: Journal, d: Journal, blocks: Blocks, config: Fs)
    requires Live(s, j) && Kept(s, d) && s.header.generation < MAX32 && |blocks| == |s.card.blocks| && Pristine(config)
    requires Slot(blocks[0], s.headerIndex) == Slot(s.card.blocks[0], s.headerIndex)
    requires Slot(blocks[0], 1 - s.headerIndex) == HeaderBytes(NextHeader(s))
    requires forall b :: 8000 <= b < |blocks| ==> blocks[b] == View(s, b)
    ensures ComesBack(blocks, config, NextHeader(s), j.contents)
  {
    hide SlotValid, HeaderFrom, Slot, Tracks, Carried, Full, ComesBack, HeaderBytes, HeaderBody, Crc.Crc16;
    hide Describes, Encode, Trails;
    var h := NextHeader(s);
    SealedIsValid(Drained(s).header);
    HeaderRoundTrip(h);
    LeaderIsNewest(blocks[0], 1 - s.headerIndex, h.generation);
    TracksFrame(s.header, j, h);
    ViewCarried(s, j, blocks);
    ComesBackFrom(blocks, 1 - s.headerIndex, h, j, config);
  }

  lemma ViewCarried(s: Fs, j: Journal, blocks: Blocks)
    requires Live(s, j) && |blocks| == |s.card.blocks| && forall b :: 8000 <= b < |blocks| ==> blocks[b] == View(s, b)
    ensures Carried(blocks, j)
  {
    hide Full, Encode, Describes;
    LiveCarried(s, j);
    var v := ViewBlocks(s);
    assert forall b :: 8000 <= b < |blocks| ==> blocks[b] == v[b];
  }

  /** The card while a dirty buffer is being synced: either the header was not
      reached, or block 0 was written in full or torn. */
  lemma FsyncCards(s: Fs)
    requires Coherent(s) && s.dirty
    ensures var c := Fsync(s).fs.card.blocks;
            var hb := s.header.block;
            && (!Passes(s.card, hb) ==>
                 exists mask :: c == s.card.blocks[hb := Mix(s.card.blocks[hb], s.buffer, mask)])
            && (Passes(s.card, hb) ==>
                 |c| == |s.card.blocks| && forall b :: 0 < b < |c| ==> c[b] == View(s, b))
  {
    hide HeaderWrite, Mix;
    if Passes(s.card, s.header.block) {
      var d := Drained(s);
      assert Coherent(d) && SameView(s, d);
      HeaderWriteKeeps(d, false);
      var t := Fsync(s).fs;
      assert forall b :: 0 < b < |t.card.blocks| ==> t.card.blocks[b] == View(t, b) == View(d, b) == View(s, b);
    }
  }

  lemma CrashInData(s: Fs, d: Journal, config: Fs)
    requires Coherent(s) && Kept(s, d) && s.dirty && !Passes(s.card, s.header.block) && Pristine(config)
    ensures ComesBack(Fsync(s).fs.card.blocks, config, Stored(s), d.contents)
  {
    hide Carried, Kept, ComesBack, Fsync, Mix, Slot, SlotValid, Stored, Passes, Pristine;
    var c, hb := Fsync(s).fs.card.blocks, s.header.block;
    FsyncCards(s);
    var mask :| c == s.card.blocks[hb := Mix(s.card.blocks[hb], s.buffer, mask)];
    TornDataCarried(s, d, Mix(s.card.blocks[hb], s.buffer, mask), mask);
    OldComesBack(s, d, c, config);
  }

  /** A successful sync leaves the next header in the other slot. */
  lemma SyncedSlot(s: Fs)
    requires |s.card.blocks| > 0 && s.dirty && Fsync(s).ok
    ensures Slot(Fsync(s).fs.card.blocks[0], 1 - s.headerIndex) == HeaderBytes(NextHeader(s))
    ensures Fsync(s).fs.header == NextHeader(s)
  {
    hide HeaderWrite, HeaderBytes, Slot, Seal, SlotValid, HeaderFrom;
    HeaderWriteEffect(Drained(s));
  }

  lemma CrashInHeader(s: Fs, j: Journal, d: Journal, config: Fs)
    requires Coherent(s) && Live(s, j) && Kept(s, d) && s.header.generation < MAX32 && Honest(s)
    requires s.dirty && Passes(s.card, s.header.block) && Pristine(config)
    ensures ComesBack(Fsync(s).fs.card.blocks, config, Stored(s), d.contents)
         || ComesBack(Fsync(s).fs.card.blocks, config, NextHeader(s), j.contents)
    ensures Fsync(s).ok ==> ComesBack(Fsync(s).fs.card.blocks, config, NextHeader(s), j.contents)
  {
    hide Carried, Kept, Live, ComesBack, Fsync, HeaderWrite, Drained, Slot, SlotValid, Stored, NextHeader;
    hide HeaderBytes, Pristine;
    var c := Fsync(s).fs.card.blocks;
    FsyncCards(s);
    DirtyFsync(s);
    DrainedIndex(s);
    OtherSlotSafe(Drained(s));
    if Fsync(s).ok { SyncedSlot(s); }
    if Slot(c[0], 1 - s.headerIndex) == HeaderBytes(NextHeader(s)) {
      NewComesBack(s, j, d, c, config);
    } else {
      TornDataCarried(s, d, s.buffer, []);
      SameCarried(s.card.blocks[s.header.block := s.buffer], c, d);
      OldComesBack(s, d, c, config);
    }
  }

  /** Crash during a sync: whatever the device did, start-up finds the header
      as it was before the sync or as the sync stored it, and every file reads
      back exactly what that header describes. */
  lemma FsyncCrash(s: Fs, j: Journal, d: Journal, config: Fs)
    requires Live(s, j) && Kept(s, d) && s.header.generation < MAX32 && Honest(s) && Pristine(config)
    ensures ComesBack(Fsync(s).fs.card.blocks, config, Stored(s), d.contents)
         || (s.dirty && ComesBack(Fsync(s).fs.card.blocks, config, NextHeader(s), j.contents))
    ensures s.dirty && Fsync(s).ok ==> ComesBack(Fsync(s).fs.card.blocks, config, NextHeader(s), j.contents)
  {
    LiveIsCoherent(s, j);
    assert |s.card.blocks| > 0;
    hide Carried, Kept, Live, ComesBack, Fsync, Stored, NextHeader, Honest, Coherent, Pristine, Slot;
    if !s.dirty {
      CleanFsync(s);
      KeptCarried(s, d, s.card.blocks);
      OldComesBack(s, d, s.card.blocks, config);
    } else if !Passes(s.card, s.header.block) {
      CrashInData(s, d, config);
    } else {
      CrashInHeader(s, j, d, config);
    }
  }

  // ----- a crash at any point of an append -----

  /** The state of an append just before its own sync. */
  ghost function Filled(s: Fs, f: nat, data: seq<byte>): Fs
    requires f < 4 && |data| <= 65528 && Took(s, f, data)
  {
    Put(Allocate(s, f, ENTRY_SIZE + |data|).fs, f, data)
  }

  /** No torn header slot of a sync that the append makes collides with its checksum. */
  ghost predicate HonestAppend(s: Fs, f: nat, data: seq<byte>)
    requires f < 4 && |data| <= 65528
  {
    && (Admitted(|data|) && Moves(s, data) ==> Honest(s))
    && (Took(s, f, data) && s.settings[f].sync ==> Honest(Filled(s, f, data)))
  }

  lemma KeptComesBack(s: Fs, d: Journal, config: Fs)
    requires Kept(s, d) && Pristine(config)
    ensures ComesBack(s.card.blocks, config, Stored(s), d.contents)
  {
    KeptRing(s, d);
    hide Kept, ComesBack, Carried, Pristine, Stored, Slot, Tracks;
    KeptCarried(s, d, s.card.blocks);
    OldComesBack(s, d, s.card.blocks, config);
  }

  /** The allocation was cut short: nothing of the new entry reached the card. */
  lemma CrashInAllocate(s: Fs, j: Journal, d: Journal, f: nat, required: nat, config: Fs)
    requires Live(s, j) && Kept(s, d) && s.header.generation < MAX32 && Roomy(s) && Pristine(config)
    requires f < 4 && 8 <= required <= 512 && (required + s.header.offset > 512 ==> Honest(s))
    ensures var c := Allocate(s, f, required).fs.card.blocks;
            ComesBack(c, config, Stored(s), d.contents) || (s.dirty && ComesBack(c, config, NextHeader(s), j.contents))
  {
    LiveIsCoherent(s, j);
    hide Live, Kept, Fsync, Arrive, Allocate, ComesBack, Honest, Pristine, Coherent, Roomy, NextHeader, Stored, Slot;
    var move := required + s.header.offset > 512;
    AllocateArrives(s, j, f, required);
    ArriveStores(s, move);
    if move {
      FsyncCrash(s, j, d, config);
    } else {
      KeptComesBack(s, d, config);
    }
  }

  lemma StoredOnArrival(s: Fs, move: bool)
    requires Coherent(s) && Protocol(s) && Arrive(s, move).ok && s.header.generation < MAX32
    ensures |Arrive(s, move).fs.card.blocks| > 0 && Protocol(Arrive(s, move).fs)
    ensures Stored(Arrive(s, move).fs) == if s.dirty && move then NextHeader(s) else Stored(s)
  {
    assert |s.card.blocks| > 0;
    hide Arrive, Fsync, Stored, NextHeader, Slot, Leads;
    ArriveHolds(s, move);
    ArriveStores(s, move);
    if s.dirty && move { SyncedSlot(s); }
  }

  lemma StoredAfterPut(s: Fs, f: nat, data: seq<byte>)
    requires Coherent(s) && Protocol(s) && s.cached == s.header.block
    requires f < 4 && 1 <= |data| <= MAX_PAYLOAD && s.header.offset + ENTRY_SIZE + |data| <= 512
    ensures |Put(s, f, data).card.blocks| > 0 && Stored(Put(s, f, data)) == Stored(s)
  {
    hide Put, Coherent, Leads;
    PutFacts(s, f, data);
    ProtocolFrame(s, Put(s, f, data));
  }

  /** The header on the card just before an append's own sync. */
  lemma StoredBeforeSync(s: Fs, j: Journal, f: nat, data: seq<byte>)
    requires Live(s, j) && Protocol(s) && s.header.generation < MAX32 - 1 && Roomy(s)
    requires f < 4 && |data| <= 65528 && Took(s, f, data)
    ensures |Filled(s, f, data).card.blocks| > 0
    ensures Stored(Filled(s, f, data)) == if s.dirty && Moves(s, data) then NextHeader(s) else Stored(s)
  {
    hide Live, Protocol, Allocate, Put, Arrive, Stored, NextHeader, Coherent, Roomy, AfterAppend, View;
    LiveIsCoherent(s, j);
    AllocateArrives(s, j, f, ENTRY_SIZE + |data|);
    StoredOnArrival(s, Moves(s, data));
    LiveBeforeSync(s, j, f, data);
    StoredAfterPut(Allocate(s, f, ENTRY_SIZE + |data|).fs, f, data);
  }

  /** After start-up on these blocks the files are as the stored header of `s`
      has them, or, if entries were still unsynced, as they were in `s`, or as
      they are with the new payload; and the header is the one that goes with it. */
  ghost predicate Recovers(
    c: Blocks, config: Fs, s: Fs, f: nat, data: seq<byte>, saved: seq<Payloads>, live: seq<Payloads>,
        grown: seq<Payloads>)
    requires f < 4 && |data| <= 65528 && |s.card.blocks| > 0 && |saved| == 4 && |live| == 4 && |grown| == 4
  {
    || ComesBack(c, config, Stored(s), saved)
    || (s.dirty && ComesBack(c, config, NextHeader(s), live))
    || (Took(s, f, data) && s.settings[f].sync && ComesBack(c, config, NextHeader(Filled(s, f, data)), grown))
  }

  /** An append that says it was synced comes back with its payload. */
  ghost predicate Acknowledged(c: Blocks, config: Fs, s: Fs, f: nat, data: seq<byte>, grown: seq<Payloads>)
    requires f < 4 && |data| <= 65528 && |grown| == 4
  {
    s.settings[f].sync && Append(s, f, data).ok ==>
      Took(s, f, data) && ComesBack(c, config, NextHeader(Filled(s, f, data)), grown)
  }

  lemma CrashInAppendSync(s: Fs, j: Journal, d: Journal, f: nat, data: seq<byte>, config: Fs)
    requires Live(s, j) && Kept(s, d) && s.header.generation < MAX32 - 1 && Roomy(s) && Pristine(config)
    requires f < 4 && |data| <= 65528 && Took(s, f, data) && s.settings[f].sync && Honest(Filled(s, f, data))
    ensures |s.card.blocks| > 0
    ensures var c := Append(s, f, data).fs.card.blocks;
            && Recovers(c, config, s, f, data, d.contents, j.contents, AfterAppend(s, j, f, data).contents)
            && Acknowledged(c, config, s, f, data, AfterAppend(s, j, f, data).contents)
  {
    KeptIsProtocol(s, d);
    assert |s.card.blocks| > 0;
    hide Live, Kept, Fsync, Allocate, Put, ComesBack, Honest, Pristine, Roomy, AfterAppend, Stored;
    hide NextHeader, Slot, Protocol;
    LiveBeforeSync(s, j, f, data);
    KeptBeforeSync(s, j, d, f, data);
    StoredBeforeSync(s, j, f, data);
    var p, d1 := Filled(s, f, data), if s.dirty && Moves(s, data) then j else d;
    FsyncCrash(p, AfterAppend(s, j, f, data), d1, config);
    AppendSyncs(s, f, data, p);
  }

  lemma AppendSyncs(s: Fs, f: nat, data: seq<byte>, p: Fs)
    requires f < 4 && |data| <= 65528 && Took(s, f, data) && p == Filled(s, f, data)
    ensures Append(s, f, data) == if p.settings[f].sync then Fsync(p) else Outcome(p, true)
  {
    hide Allocate, Fsync, Put;
  }

  /** Crash at any point of an append: after start-up all four files together
      read back as last saved, or, if entries were still unsynced, as they were
      before the append, or as they are with the new payload; nothing else. The
      header that comes back is the one that goes with them, and an append that
      returned true from its sync comes back with its payload. */
  lemma AppendCrash(s: Fs, j: Journal, d: Journal, f: nat, data: seq<byte>, config: Fs)
    requires Live(s, j) && Kept(s, d) && s.header.generation < MAX32 - 1 && Roomy(s) && Pristine(config)
    requires f < 4 && |data| <= 65528 && HonestAppend(s, f, data)
    ensures |s.card.blocks| > 0
    ensures var c := Append(s, f, data).fs.card.blocks;
            && Recovers(c, config, s, f, data, d.contents, j.contents, AfterAppend(s, j, f, data).contents)
            && Acknowledged(c, config, s, f, data, AfterAppend(s, j, f, data).contents)
  {
    hide Live, Kept, Append, Recovers, Acknowledged, Honest, Pristine, Roomy, AfterAppend, Filled, Took;
    if Took(s, f, data) && s.settings[f].sync {
      CrashInAppendSync(s, j, d, f, data, config);
    } else {
      CrashBeforeSync(s, j, d, f, data, config);
    }
  }

  lemma CrashBeforeSync(s: Fs, j: Journal, d: Journal, f: nat, data: seq<byte>, config: Fs)
    requires Live(s, j) && Kept(s, d) && s.header.generation < MAX32 - 1 && Roomy(s) && Pristine(config)
    requires f < 4 && |data| <= 65528 && !(Took(s, f, data) && s.settings[f].sync)
    requires Admitted(|data|) && Moves(s, data) ==> Honest(s)
    ensures |s.card.blocks| > 0
    ensures var c, grown := Append(s, f, data).fs.card.blocks, AfterAppend(s, j, f, data).contents;
            Recovers(c, config, s, f, data, d.contents, j.contents, grown) && Acknowledged(c, config, s, f, data, grown)
  {
    hide Live, Kept, Append, Allocate, ComesBack, Honest, Pristine, Roomy, AfterAppend, Stored, NextHeader;
    hide Slot, Tracks, Filled, Took;
    KeptRing(s, d);
    UnsyncedCard(s, f, data);
    if Admitted(|data|) {
      CrashInAllocate(s, j, d, f, ENTRY_SIZE + |data|, config);
    } else {
      KeptComesBack(s, d, config);
    }
  }

  /** An append that does not reach a sync of its own writes no more than its allocation. */
  lemma UnsyncedCard(s: Fs, f: nat, data: seq<byte>)
    requires f < 4 && |data| <= 65528 && (Took(s, f, data) ==> !s.settings[f].sync)
    ensures s.settings[f].sync ==> !Append(s, f, data).ok
    ensures if 1 <= |data| <= MAX_PAYLOAD
            then Append(s, f, data).fs.card.blocks == Allocate(s, f, ENTRY_SIZE + |data|).fs.card.blocks
            else Append(s, f, data) == Outcome(s, false)
  {
    hide Allocate, Fsync, Put;
    AppendSettings(s, f, data);
    if Admitted(|data|) {
      var a := Allocate(s, f, ENTRY_SIZE + |data|);
      if a.ok { PutKeeps(a.fs, f, data); }
    }
  }

  // ----- the theorem over whole histories -----

  ghost predicate AllSync(s: Fs) {
    forall f :: 0 <= f < 4 ==> s.settings[f].sync
  }

  ghost predicate SyncEvents(es: seq<Event>) {
    forall i :: 0 <= i < |es| && es[i].PowerLoss? ==> AllSync(es[i].config)
  }

  /** The history up to now, power losses included, followed by an append that
      power loss may cut short at any transfer: the files come back as saved,
      or as they stood, or with the new payload. The history must not end
      exposed, that is, with a touch of entries that were not synced since. */
  lemma CrashAfterHistory(s: Fs, es: seq<Event>, f: nat, data: seq<byte>, script: seq<Io>, config: Fs)
    requires Fresh(s) && AllPossible(es) && AllAllowed(s, es) && !Ledger(s, es).exposed && Pristine(config)
    requires f < 4 && |data| <= 65528 && Allowed(s, es, Perform(AppendTo(f, data)))
    requires HonestAppend(Facing(History(s, es), script), f, data)
    ensures var t, b := Facing(History(s, es), script), Ledger(s, es);
            var c, grown := Append(t, f, data).fs.card.blocks, b.live[f := b.live[f] + [data]];
            && |t.card.blocks| > 0
            && Recovers(c, config, t, f, data, b.saved, b.live, grown) && Acknowledged(c, config, t, f, data, grown)
  {
    hide Live, Kept, History, Ledger, Append, ComesBack, HonestAppend, Pristine, Roomy, Took, Booked, Fresh;
    hide AfterAppend;
    var j, d, n := HistoryIsBooked(s, es);
    var t := Facing(History(s, es), script);
    BookedIsKept(History(s, es), j, d, n, Ledger(s, es));
    FacingKeeps(History(s, es), j, d, script);
    AppendCrash(t, j, d, f, data, config);
    if Took(t, f, data) {
      TookAdds(t, j, f, data);
    } else {
      NotTaken(t, f, data);
    }
  }

  lemma NotTaken(s: Fs, f: nat, data: seq<byte>)
    requires f < 4 && |data| <= 65528 && !Took(s, f, data)
    ensures !Append(s, f, data).ok
  {
    hide Allocate, Fsync;
  }

  lemma BookedIsKept(s: Fs, j: Journal, d: Journal, n: nat, b: Books)
    requires Booked(s, j, d, n, b) && !b.exposed
    ensures Live(s, j) && Kept(s, d) && Working(s.card) && j.contents == b.live && d.contents == b.saved
  {
    hide Live, Kept, Working, Written, Lands, Leaves;
  }

  /** The same state, about to meet this fate. */
  ghost function Facing(s: Fs, script: seq<Io>): Fs {
    s.(card := Card(s.card.blocks, script))
  }

  lemma FacingKeeps(s: Fs, j: Journal, d: Journal, script: seq<Io>)
    requires Live(s, j) && Kept(s, d)
    ensures Live(Facing(s, script), j) && Kept(Facing(s, script), d) && (Roomy(s) ==> Roomy(Facing(s, script)))
  {
    hide Tracks, Full, Protocol, Stored;
    var t := Facing(s, script);
    ProtocolFrame(s, t);
    assert forall b :: 0 <= b < |s.card.blocks| ==> View(t, b) == View(s, b);
  }

  lemma TookAdds(s: Fs, j: Journal, f: nat, data: seq<byte>)
    requires f < 4 && |data| <= 65528 && Took(s, f, data)
    ensures AfterAppend(s, j, f, data).contents == j.contents[f := j.contents[f] + [data]]
  {
    hide Allocate;
  }

  lemma SyncOp(s: Fs, j: Journal, op: Op)
    requires Legal(op) && Live(s, j) && Ready(s, j, op) && Working(s.card) && !s.dirty && AllSync(s)
    ensures !Do(s, op).fs.dirty && Do(s, op).fs.settings == s.settings
  {
    LiveIsCoherent(s, j);
    hide Live, Coherent, Do, AllSync, Ready, Fsync, Touch, Append;
    match op
    case AppendTo(f, data) =>
      SyncsAt(s, f);
      ReadyAppend(s, j, f, data);
      SyncAppendAny(s, j, f, data);
    case TouchAt(time) => DoesTouch(s, time); TouchKeeps(s, time);
    case FlushAt(time) => DoesTouch(s, time); TouchKeeps(s, time); CleanFsync(Touch(s, time).fs);
    case _ => QuietSync(s, op);
  }

  lemma SyncAppendAny(s: Fs, j: Journal, f: nat, data: seq<byte>)
    requires f < 4 && |data| <= 65528
    requires Live(s, j) && Roomy(s) && Working(s.card) && !s.dirty && s.settings[f].sync
    ensures !Append(s, f, data).fs.dirty && Append(s, f, data).fs.settings == s.settings
  {
    hide Live, Allocate, Fsync, Put, Roomy, Working;
    if Admitted(|data|) { SyncAppend(s, j, f, data); }
  }

  lemma ReadyAppend(s: Fs, j: Journal, f: nat, data: seq<byte>)
    requires Legal(AppendTo(f, data)) && Ready(s, j, AppendTo(f, data))
    ensures Roomy(s) && Do(s, AppendTo(f, data)) == Append(s, f, data)
  {
    hide Append, Roomy;
  }

  lemma SyncsAt(s: Fs, f: nat)
    requires AllSync(s) && f < 4
    ensures s.settings[f].sync
  {
  }

  lemma QuietSync(s: Fs, op: Op)
    requires Legal(op) && !s.dirty && (op.TruncateFile? || op.TruncateEvery? || op.Load?)
    ensures !Do(s, op).fs.dirty && Do(s, op).fs.settings == s.settings
  {
  }

  /** When every file is a sync file, nothing is ever left unsynced. */
  lemma {:induction false} SyncedIsClean(s: Fs, es: seq<Event>)
    requires Fresh(s) && !s.dirty && AllSync(s)
    requires AllPossible(es) && AllAllowed(s, es) && SyncEvents(es)
    ensures !History(s, es).dirty && AllSync(History(s, es)) && !Ledger(s, es).exposed
    decreases |es|
  {
    hide Live, Kept, Working, Do, Reboot, Pristine, Booked, Fresh, Ledger, Happen, AllSync, Account;
    if |es| > 0 {
      AllowedFront(s, es);
      var front, e := es[..|es| - 1], es[|es| - 1];
      SyncedIsClean(s, front);
      var j, d, n := HistoryIsBooked(s, front);
      var t := History(s, front);
      AllowedIsFit(s, front, e, j);
      BookedIsKept(t, j, d, n, Ledger(s, front));
      SyncEvent(t, j, d, Ledger(s, front), e);
    }
    var j, d, n := HistoryIsBooked(s, es);
    CleanIsHidden(History(s, es), j, d, n, Ledger(s, es));
  }

  lemma CleanIsHidden(s: Fs, j: Journal, d: Journal, n: nat, b: Books)
    requires Booked(s, j, d, n, b) && !s.dirty
    ensures !b.exposed
  {
    hide Live, Kept, Working, Written, Lands, Leaves;
  }

  lemma SyncEvent(s: Fs, j: Journal, d: Journal, b: Books, e: Event)
    requires Possible(e) && Live(s, j) && Kept(s, d) && Working(s.card) && Fit(s, j, b, e) && !s.dirty && AllSync(s)
    requires e.PowerLoss? ==> AllSync(e.config)
    ensures !Happen(s, e).dirty && AllSync(Happen(s, e))
  {
    hide Live, Kept, Working, Do, Reboot, Pristine;
    match e
    case Perform(op) => SyncOp(s, j, op);
    case PowerLoss(config) => RebootRestores(s, d, config); RebootClean(s, d, config);
  }

  /** Crash atomicity: with sync files only, an append cut short at any
      transfer leaves either the state last saved or the state with the new
      payload; nothing in between is ever seen, and one that returned true
      survives a loss of power right after it. */
  lemma SyncAppendIsAtomic(s: Fs, es: seq<Event>, f: nat, data: seq<byte>, script: seq<Io>, config: Fs)
    requires Fresh(s) && !s.dirty && AllSync(s)
    requires AllPossible(es) && AllAllowed(s, es) && SyncEvents(es) && Pristine(config)
    requires f < 4 && |data| <= 65528 && Allowed(s, es, Perform(AppendTo(f, data)))
    requires HonestAppend(Facing(History(s, es), script), f, data)
    ensures var t, b := Facing(History(s, es), script), Ledger(s, es);
            var c, grown := Append(t, f, data).fs.card.blocks, b.live[f := b.live[f] + [data]];
            && |t.card.blocks| > 0
            && (ComesBack(c, config, Stored(t), b.saved)
                || (Took(t, f, data) && ComesBack(c, config, NextHeader(Filled(t, f, data)), grown)))
            && (Append(t, f, data).ok ==>
                 Took(t, f, data) && ComesBack(c, config, NextHeader(Filled(t, f, data)), grown))
  {
    hide History, Ledger, Append, ComesBack, HonestAppend, Pristine, Took, Allowed, Fresh, Stored, NextHeader;
    hide Filled, AllSync, Slot;
    SyncedIsClean(s, es);
    CrashAfterHistory(s, es, f, data, script, config);
    SyncsAt(History(s, es), f);
  }
}
