/** The two-slot header protocol of block 0. */
module HeaderProtocol {
  import opened Bytes
  import Crc
  import opened Header
  import opened Entry
  import opened Card
  import opened Fs
  import opened Cache

  /** The current slot is valid and carries the strictly greatest generation. */
  ghost predicate Protocol(s: Fs) {
    && |s.card.blocks| > 0 && s.headerIndex == s.header.generation % 2
    && Leads(s.card.blocks[0], s.headerIndex, s.header.generation)
  }

  ghost predicate Leads(b: Block, i: nat, generation: u32)
    requires i < 2
  {
    && SlotValid(Slot(b, i)) && HeaderFrom(Slot(b, i)).generation == generation
    && (SlotValid(Slot(b, 1 - i)) ==> HeaderFrom(Slot(b, 1 - i)).generation < generation)
  }

  /** The header last written to the card. */
  ghost function Stored(s: Fs): Header
    requires |s.card.blocks| > 0
  {
    HeaderFrom(Slot(s.card.blocks[0], s.headerIndex))
  }

  lemma LeaderIsNewest(b: Block, i: nat, generation: u32)
    requires i < 2 && Leads(b, i, generation)
    ensures Newest(b) == i
  {
    hide SlotValid, HeaderFrom, Slot;
  }

  /** A header write puts the sealed header into its slot and keeps the other one. */
  lemma HeaderWriteEffect(s: Fs)
    requires |s.card.blocks| > 0 && HeaderWrite(s, false).ok
    ensures var t := HeaderWrite(s, false).fs;
            && |t.card.blocks| == |s.card.blocks|
            && Slot(t.card.blocks[0], s.headerIndex) == HeaderBytes(t.header)
            && Slot(t.card.blocks[0], 1 - s.headerIndex) == Slot(s.card.blocks[0], 1 - s.headerIndex)
            && SlotValid(Slot(t.card.blocks[0], s.headerIndex))
            && Stored(t) == t.header == Seal(s.header)
  {
    hide HeaderBytes, Splice, HeaderBody, Crc.Crc16, SlotValid, HeaderFrom, Slot;
    var h := Seal(s.header);
    SealedIsValid(s.header);
    HeaderRoundTrip(h);
    SlotWrite(s.card.blocks[0], s.headerIndex, HeaderBytes(h));
  }

  /** Touching rewrites the current slot in place. */
  lemma TouchProtocol(s: Fs, time: u32)
    requires Protocol(s) && Touch(s, time).ok
    ensures var t := Touch(s, time).fs;
            Protocol(t) && Stored(t) == t.header && t.header == s.header.(time := time, crc := t.header.crc)
            && Slot(t.card.blocks[0], 1 - s.headerIndex) == Slot(s.card.blocks[0], 1 - s.headerIndex)
  {
    hide HeaderBytes, Splice, HeaderBody, Crc.Crc16, SlotValid, HeaderFrom, Slot;
    HeaderWriteEffect(s.(header := s.header.(time := time)));
  }

  /** A successful sync of a dirty buffer writes the header into the older slot
      under the next generation. Starting up then trusts the slot just written
      if and only if the generation counter did not overflow. */
  lemma FsyncProtocol(s: Fs)
    requires Protocol(s) && 0 < s.header.block < |s.card.blocks| && s.dirty && Fsync(s).ok
    ensures var t := Fsync(s).fs;
            && t.headerIndex == 1 - s.headerIndex
            && Stored(t) == t.header
            && t.header == s.header.(generation := Inc32(s.header.generation), crc := t.header.crc)
            && Slot(t.card.blocks[0], s.headerIndex) == Slot(s.card.blocks[0], s.headerIndex)
            && (s.header.generation < MAX32 ==> Protocol(t))
            && (Newest(t.card.blocks[0]) == t.headerIndex <==> s.header.generation < MAX32)
  {
    hide HeaderBytes, Splice, HeaderBody, Crc.Crc16, SlotValid, HeaderFrom, Slot;
    var d := Drained(s);
    assert d.card.blocks[0] == s.card.blocks[0];
    HeaderWriteEffect(d);
    var t := Fsync(s).fs;
    if s.header.generation < MAX32 {
      LeaderIsNewest(t.card.blocks[0], t.headerIndex, t.header.generation);
    } else {
      LeaderIsNewest(t.card.blocks[0], s.headerIndex, MAX32);
    }
  }

  /** What a header write may leave in block 0. */
  lemma HeaderWriteBlock(s: Fs) returns (mask: seq<bool>)
    requires |s.card.blocks| > 0
    ensures var old_ := s.card.blocks[0];
            var image := Splice(old_, s.headerIndex * HEADER_SIZE, HeaderBytes(Seal(s.header)));
            HeaderWrite(s, false).fs.card.blocks[0] in {old_, image, Mix(old_, image, mask)}
  {
    hide HeaderBytes, Splice, Seal, Mix;
    var c := Spent(s.card);
    mask := if NextIo(c).Fail? then NextIo(c).mask else [];
  }

  /** However a header write ends, even torn, the other slot keeps its bytes. */
  lemma OtherSlotSafe(s: Fs)
    requires |s.card.blocks| > 0
    ensures Slot(HeaderWrite(s, false).fs.card.blocks[0], 1 - s.headerIndex)
            == Slot(s.card.blocks[0], 1 - s.headerIndex)
  {
    hide HeaderBytes, Splice, Seal, Mix, HeaderWrite;
    var i, old_ := s.headerIndex, s.card.blocks[0];
    var image := Splice(old_, i * HEADER_SIZE, HeaderBytes(Seal(s.header)));
    var mask := HeaderWriteBlock(s);
    SlotWrite(old_, i, HeaderBytes(Seal(s.header)));
    MixKeeps(old_, image, mask, (1 - i) * HEADER_SIZE, (2 - i) * HEADER_SIZE);
  }

  /** After a header write has failed, the next sync aims at the one slot that
      still holds the last good header. */
  lemma RetryTargetsLiveSlot(s: Fs)
    requires |s.card.blocks| > 0 && 0 < s.header.block && s.dirty && Passes(s.card, s.header.block) && !Fsync(s).ok
    ensures Drained(Fsync(s).fs).headerIndex == s.headerIndex
    ensures Slot(Fsync(s).fs.card.blocks[0], s.headerIndex) == Slot(s.card.blocks[0], s.headerIndex)
  {
    hide *;
    DirtyFsync(s);
    DrainedIndex(s);
    DrainedIndex(Fsync(s).fs);
    OtherSlotSafe(Drained(s));
  }

  /** A header write has failed and left its slot torn: the other slot is the only
      one start-up can trust, and it is the one the next sync writes. If that
      write tears it too, both slots are gone, and start-up takes the card for a
      new one: every file is empty and the counters begin again. */
  lemma RetryMayLoseBoth(s: Fs, t: Fs, boot: Fs, draws: seq<u16>)
    requires |s.card.blocks| > 0 && 0 < s.header.block && s.dirty && Passes(s.card, s.header.block) && !Fsync(s).ok
    requires !SlotValid(Slot(Fsync(s).fs.card.blocks[0], 1 - s.headerIndex))
    requires t.headerIndex == Fsync(s).fs.headerIndex && |t.card.blocks| > 0
    requires t.card.blocks[0] == Fsync(s).fs.card.blocks[0]
    requires 0 < t.header.block && t.dirty && Passes(t.card, t.header.block)
    requires Pristine(boot) && boot.card.blocks == Fsync(t).fs.card.blocks && Passes(boot.card, 0) && |draws| == 4
    ensures Newest(t.card.blocks[0]) == if SlotValid(Slot(s.card.blocks[0], s.headerIndex)) then s.headerIndex else 2
    ensures Drained(t).headerIndex == s.headerIndex
    ensures var c := Fsync(t).fs.card.blocks[0];
            && Newest(c) == (if SlotValid(Slot(c, s.headerIndex)) then s.headerIndex else 2)
            && (!SlotValid(Slot(c, s.headerIndex)) && Initialize(boot, false, draws).ok ==>
                 var h := Initialize(boot, false, draws).fs.header;
                 h.generation == 1 && h.block == FIRST_BLOCK && forall f :: 0 <= f < 4 ==> h.files[f].size == 0)
  {
    hide HeaderWrite, SlotValid, HeaderFrom, Slot, Fsync, Drained, Format, FreshHeader;
    RetryTargetsLiveSlot(s);
    FailedIndex(s);
    DirtyFsync(t);
    DrainedIndex(t);
    OtherSlotSafe(Drained(t));
    if !SlotValid(Slot(Fsync(t).fs.card.blocks[0], s.headerIndex)) && Initialize(boot, false, draws).ok {
      StartsOver(boot, draws);
    }
  }

  /** A touch rewrites the newest slot in place. If that write is torn and the
      slot fails its checksum, start-up falls back to the header of the sync
      before, and if there is none it formats the card. */
  lemma TornTouch(s: Fs, time: u32)
    requires Protocol(s) && !SlotValid(Slot(Touch(s, time).fs.card.blocks[0], s.headerIndex))
    ensures var c := Touch(s, time).fs.card.blocks[0];
            && Slot(c, 1 - s.headerIndex) == Slot(s.card.blocks[0], 1 - s.headerIndex)
            && Newest(c) == if SlotValid(Slot(s.card.blocks[0], 1 - s.headerIndex)) then 1 - s.headerIndex else 2
  {
    hide HeaderWrite, SlotValid, HeaderFrom, Slot;
    OtherSlotSafe(s.(header := s.header.(time := time)));
  }

  lemma FailedIndex(s: Fs)
    requires s.dirty && Passes(s.card, s.header.block)
    ensures Fsync(s).fs.headerIndex == 1 - s.headerIndex
  {
    hide HeaderBytes, Splice, Seal, Write;
  }

  /** Without a valid slot start-up formats the card. */
  lemma StartsOver(boot: Fs, draws: seq<u16>)
    requires |draws| == 4 && Pristine(boot) && Passes(boot.card, 0) && Newest(boot.card.blocks[0]) == 2
    requires Initialize(boot, false, draws).ok
    ensures var h := Initialize(boot, false, draws).fs.header;
            h.generation == 1 && h.block == FIRST_BLOCK && forall f :: 0 <= f < 4 ==> h.files[f].size == 0
  {
    hide Newest, HeaderWrite, Slot, SlotValid, HeaderFrom, Splice;
    var l := boot.(numberOfBlocks := |boot.card.blocks|, buffer := boot.card.blocks[0], card := Spent(boot.card));
    FormatProtocol(l, draws);
  }

  lemma DrainedIndex(s: Fs)
    ensures Drained(s).headerIndex == 1 - s.headerIndex
    ensures |Drained(s).card.blocks| == |s.card.blocks|
    ensures 0 < s.header.block && |s.card.blocks| > 0 ==> Drained(s).card.blocks[0] == s.card.blocks[0]
  {
  }

  lemma DirtyFsync(s: Fs)
    requires s.dirty && Passes(s.card, s.header.block)
    ensures Fsync(s) == HeaderWrite(Drained(s), false)
  {
    hide HeaderWrite;
  }

  lemma ProtocolFrame(s: Fs, t: Fs)
    requires Protocol(s) && |t.card.blocks| == |s.card.blocks| && t.card.blocks[0] == s.card.blocks[0]
    requires t.headerIndex == s.headerIndex && t.header.generation == s.header.generation
    ensures Protocol(t) && Stored(t) == Stored(s)
  {
  }

  /** Fsync in either case, when it succeeds. */
  lemma FsyncHolds(s: Fs)
    requires Coherent(s) && Protocol(s) && Fsync(s).ok && (s.dirty ==> s.header.generation < MAX32)
    ensures var t := Fsync(s).fs;
            && Protocol(t)
            && t.header.generation == (if s.dirty then s.header.generation + 1 else s.header.generation)
            && Stored(t) == if s.dirty then t.header else Stored(s)
  {
    hide Protocol, Stored, HeaderWrite, Newest, Slot;
    if s.dirty { FsyncProtocol(s); }
  }

  lemma ArriveHolds(s: Fs, move: bool)
    requires Coherent(s) && Protocol(s) && Arrive(s, move).ok && (s.dirty ==> s.header.generation < MAX32)
    ensures var t := Arrive(s, move).fs;
            && Protocol(t)
            && t.header.generation == (if s.dirty && move then s.header.generation + 1 else s.header.generation)
            && t.dirty == (s.dirty && !move)
            && Stored(t) == if s.dirty && move then Fsync(s).fs.header else Stored(s)
  {
    hide Protocol, Stored, Fsync;
    var m := if move then MoveOn(s) else Outcome(s, true);
    if move {
      FsyncHolds(s);
      FsyncKeeps(s);
      MoveOnKeeps(s);
      ProtocolFrame(Fsync(s).fs, m.fs);
    }
    EnsureKeeps(m.fs, m.fs.header.block);
    ProtocolFrame(m.fs, BlockEnsure(m.fs, m.fs.header.block).fs);
  }

  lemma {:induction false} AllocateHolds(s: Fs, f: nat, required: nat, offset: nat, visited: nat)
    requires Coherent(s) && Protocol(s) && Working(s.card) && (s.dirty ==> s.header.generation < MAX32)
    requires f < 4 && 8 <= required <= 512 && visited < SEEK_BLOCKS_MAX
    ensures var t := AllocateFrom(s, f, required, offset, visited).fs;
            Protocol(t) && Working(t.card) && t.header.generation <= s.header.generation + (if s.dirty then 1 else 0)
    decreases SEEK_BLOCKS_MAX - visited, if required + offset > 512 then 0 else 1
  {
    hide Protocol, Stored, Arrive, Look, Coherent, Working, SameView, SameFiles, Advance;
    var move := required + offset > 512;
    ArriveWorks(s, move);
    ArriveHolds(s, move);
    ArriveKeeps(s, move);
    var a := Arrive(s, move);
    var r := Look(a.fs, f, required, if move then 0 else offset);
    var v := if move then visited + 1 else visited;
    if !r.status.Eob? {
      ProtocolFrame(a.fs, a.fs.(header := a.fs.header.(offset := r.offset)));
    } else if v < SEEK_BLOCKS_MAX {
      AllocateHolds(a.fs, f, required, 512, v);
    }
  }

  lemma AppendHolds(s: Fs, f: nat, data: seq<byte>)
    requires Coherent(s) && Protocol(s) && Working(s.card) && s.header.generation < MAX32 - 1
    requires f < 4 && |data| <= 65528
    ensures var t := Append(s, f, data).fs;
            Protocol(t) && Working(t.card) && t.header.generation <= s.header.generation + 2
  {
    hide Protocol, Stored, Allocate, AllocateFrom, Fsync, Put, Coherent, Working;
    if Admitted(|data|) {
      var required := ENTRY_SIZE + |data|;
      assert Allocate(s, f, required) == AllocateFrom(s, f, required, s.header.offset, 0)
          by { AllocateStarts(s, f, required); }
      AllocateHolds(s, f, required, s.header.offset, 0);
      var k := AllocateIsSafe(s, f, required);
      var a := Allocate(s, f, required);
      if a.ok {
        var p := Put(a.fs, f, data);
        PutFacts(a.fs, f, data);
        ProtocolFrame(a.fs, p);
        FsyncWorks(p);
        FsyncHolds(p);
      }
    }
  }

  lemma AllocateStarts(s: Fs, f: nat, required: nat)
    requires f < 4 && 8 <= required <= 512
    ensures Allocate(s, f, required) == AllocateFrom(s, f, required, s.header.offset, 0)
  {
  }

  lemma FlushHolds(s: Fs, time: u32)
    requires Coherent(s) && Protocol(s) && Working(s.card) && (s.dirty ==> s.header.generation < MAX32)
    ensures var o := Flush(s, time);
            o.ok && Protocol(o.fs) && Working(o.fs.card) && Stored(o.fs) == o.fs.header && !o.fs.dirty
            && o.fs.header.generation <= s.header.generation + 1
  {
    hide Protocol, Stored, Fsync, HeaderWrite;
    TouchWorks(s, time);
    TouchProtocol(s, time);
    var t := Touch(s, time).fs;
    FsyncWorks(t);
    FsyncHolds(t);
    FsyncKeeps(t);
    if !t.dirty { CleanFsync(t); }
  }

  lemma CleanFsync(s: Fs)
    requires !s.dirty
    ensures Fsync(s) == Outcome(s, true)
  {
  }

  lemma TouchWorks(s: Fs, time: u32)
    requires Coherent(s) && Working(s.card)
    ensures Touch(s, time).ok && Working(Touch(s, time).fs.card) && Coherent(Touch(s, time).fs)
    ensures SameView(s, Touch(s, time).fs)
    ensures Touch(s, time).fs.header.block == s.header.block && Touch(s, time).fs.dirty == s.dirty
  {
    hide HeaderBytes, Splice, Seal;
    HeaderWriteKeeps(s.(header := s.header.(time := time)), false);
  }

  // ----- starting up -----

  /** The state `fkfs_create` and any `fkfs_initialize_file` calls leave. */
  ghost predicate Pristine(s: Fs) {
    s.headerIndex == 0 && !s.dirty && s.cached == 0 && s.header.offset == 0
  }

  /** Creating a filesystem and configuring files leads to such a state, and a
      file keeps what it was configured with while others are configured. */
  lemma ConfiguredIsPristine(s: Fs, card: Card, f: nat, setting: Setting, name: Name, version: u16)
    requires f < 4
    ensures Pristine(Create(card))
    ensures var t := InitializeFile(s, f, setting, name, version);
            && (Pristine(s) ==> Pristine(t)) && t.card == s.card && t.buffer == s.buffer
            && t.settings[f] == setting && t.header.files[f].name == name && t.header.files[f].version == version
            && t.header.files[f].startBlock == 8000 && t.header.files[f].size == s.header.files[f].size
            && forall g :: 0 <= g < 4 && g != f ==>
                 t.settings[g] == s.settings[g] && t.header.files[g] == s.header.files[g]
  {
  }

  /** Start-up restores the header last written, apart from the configured names. */
  lemma InitializeRestores(s: Fs, boot: Fs, draws: seq<u16>)
    requires Protocol(s) && Pristine(boot) && |draws| == 4
    requires boot.card.blocks == s.card.blocks && Passes(boot.card, 0)
    ensures var o := Initialize(boot, false, draws);
            && o.ok && o.fs.headerIndex == s.headerIndex
            && o.fs.header == WithNames(Stored(s), boot.header.files)
            && o.fs.card.blocks == s.card.blocks && !o.fs.dirty && o.fs.cached == 0
            && Protocol(o.fs)
  {
    hide HeaderFrom, HeaderBytes, Splice, SlotValid, Slot;
    LeaderIsNewest(s.card.blocks[0], s.headerIndex, s.header.generation);
  }

  /** Start-up from a valid slot, in whatever state it is called: every field
      comes from that slot, except that each file keeps the name it was
      configured with, and the loaded copy of the slot is made to agree. */
  lemma StartsFromSlot(s: Fs, draws: seq<u16>, f: nat)
    requires |draws| == 4 && f < 4 && Passes(s.card, 0) && Newest(s.card.blocks[0]) < 2
    ensures var o, b, i := Initialize(s, false, draws), s.card.blocks[0], Newest(s.card.blocks[0]);
            var h, t := HeaderFrom(Slot(b, i)), o.fs;
            && o.ok && t.headerIndex == i && t.numberOfBlocks == |s.card.blocks| && t.settings == s.settings
            && t.header.generation == h.generation && t.header.block == h.block && t.header.offset == h.offset
            && t.header.time == h.time && t.header.version == h.version && t.header.crc == h.crc
            && t.header.files[f].name == s.header.files[f].name
            && t.header.files[f] == h.files[f].(name := s.header.files[f].name)
            && Slot(t.buffer, i) == HeaderBytes(t.header) && Slot(t.buffer, 1 - i) == Slot(b, 1 - i)
            && t.card.blocks == s.card.blocks && t.cached == s.cached && t.dirty == s.dirty
  {
    hide HeaderFrom, HeaderBytes, Splice, SlotValid, Slot, Newest;
    var b, i := s.card.blocks[0], Newest(s.card.blocks[0]);
    SlotWrite(b, i, HeaderBytes(WithNames(HeaderFrom(Slot(b, i)), s.header.files)));
  }

  /** After a wipe, asked for or forced by two bad slots, every file has the
      version drawn for it and the name it was configured with. So an entry that
      was on the card before is live afterwards if and only if it was written
      under the very version drawn. */
  lemma WipeRenews(boot: Fs, wipe: bool, draws: seq<u16>, b: Block, off: nat, r: Rec)
    requires Pristine(boot) && |draws| == 4 && Passes(boot.card, 0) && (wipe || Newest(boot.card.blocks[0]) == 2)
    requires Initialize(boot, wipe, draws).ok && Carries(b, off, r)
    ensures var t := Initialize(boot, wipe, draws).fs;
            && (forall f :: 0 <= f < 4 ==>
                 && t.header.files[f].version == draws[f] && t.header.files[f].name == boot.header.files[f].name
                 && t.header.files[f].startBlock == t.header.files[f].endBlock == 8000 && t.header.files[f].size == 0)
            && t.header.block == 8000 && t.header.offset == boot.header.offset
            && Stored(t) == t.header && Newest(t.card.blocks[0]) == 1
            && Check(Versions(t.header), b, off) == if r.version == draws[r.file] then Good else Status.Crc
  {
    hide Newest, HeaderWrite, Slot, SlotValid, HeaderFrom, Splice, Check, Carries, Format;
    var l := boot.(numberOfBlocks := |boot.card.blocks|, buffer := boot.card.blocks[0], card := Spent(boot.card));
    assert Initialize(boot, wipe, draws) == Format(l, draws);
    FormatProtocol(l, draws);
    var t := Format(l, draws).fs;
    LeaderIsNewest(t.card.blocks[0], 1, t.header.generation);
    TruncationIsExact(Versions(t.header), b, off, r);
  }

  /** Formatting leaves generation 0 in slot 0 and generation 1 in slot 1. */
  lemma FormatProtocol(s: Fs, draws: seq<u16>)
    requires |s.card.blocks| > 0 && s.headerIndex == 0 && |draws| == 4 && Format(s, draws).ok
    ensures var t := Format(s, draws).fs;
            Protocol(t) && Stored(t) == t.header && t.headerIndex == 1
            && t.header == FreshHeader(s.header, draws).(generation := 1, crc := t.header.crc)
            && t.header.offset == s.header.offset && t.header.time == s.header.time
            && SlotValid(Slot(t.card.blocks[0], 0))
            && HeaderFrom(Slot(t.card.blocks[0], 0)) == Seal(FreshHeader(s.header, draws))
            && !(exists b :: 0 < b < |s.card.blocks| && t.card.blocks[b] != s.card.blocks[b])
  {
    hide HeaderBytes, Splice, HeaderBody, Crc.Crc16, SlotValid, HeaderFrom, Slot, Newest;
    var s0 := Stamp(s.(header := FreshHeader(s.header, draws)));
    var w := HeaderWrite(s0, true);
    var h0 := Seal(s0.header);
    SealedIsValid(s0.header);
    HeaderRoundTrip(h0);
    SlotWrite(ZERO_BLOCK, 0, HeaderBytes(h0));
    HeaderWriteEffect(Stamp(w.fs.(header := w.fs.header.(generation := 1), headerIndex := 1)));
  }
}
