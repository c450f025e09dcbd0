/** The filesystem as the program has it: an object whose fields and 512-byte
    buffer are updated in place. Every method is proved against `Fs`. */
module FileSystem {
  import opened Bytes
  import Crc
  import opened Header
  import opened Entry
  import opened Search
  import opened Card
  import Fs

  method CopyInto(a: array<byte>, offset: nat, data: seq<byte>)
    requires offset + |data| <= a.Length
    modifies a
    ensures a[..] == Splice(old(a[..]), offset, data)
  {
    forall i | 0 <= i < |data| {
      a[offset + i] := data[i];
    }
  }

  class FileSystem {
    var headerIndex: SlotIndex
    var cachedBlockDirty: bool
    var cachedBlockNumber: u32
    var numberOfBlocks: u32
    var header: Header
    const buffer: array<byte>
    var files: Fs.Settings
    var sd: Card

    ghost predicate Valid() {
      buffer.Length == 512
    }

    /** The object's value. */
    ghost function State(): Fs.Fs
      requires Valid()
      reads this, buffer
    {
      Fs.Fs(headerIndex, cachedBlockDirty, cachedBlockNumber, numberOfBlocks, header, buffer[..], files, sd)
    }

    /** `fkfs_create`. */
    constructor (card: Card)
      ensures Valid() && fresh(buffer) && State() == Fs.Create(card)
    {
      headerIndex, cachedBlockDirty, cachedBlockNumber, numberOfBlocks := 0, false, 0, 0;
      header := EMPTY_HEADER;
      buffer := new byte[512](i => 0);
      files := [Fs.Setting(false, 0), Fs.Setting(false, 0), Fs.Setting(false, 0), Fs.Setting(false, 0)];
      sd := card;
      new;
      assert buffer[..] == ZERO_BLOCK;
    }

    /** `fkfs_initialize_file`. */
    method InitializeFile(f: nat, priority: u8, sync: bool, name: Name, version: u16)
      requires Valid() && f < 4
      modifies this`files, this`header
      ensures State() == Fs.InitializeFile(old(State()), f, Fs.Setting(sync, priority), name, version)
    {
      files := files[f := Fs.Setting(sync, priority)];
      var file := header.files[f];
      file := file.(name := name);
      file := file.(version := version);
      file := file.(startBlock := FIRST_BLOCK, startOffset := 0, endOffset := 0);
      header := header.(files := header.files[f := file]);
    }

    method ReadBlock(block: u32) returns (ok: bool, data: Block)
      modifies this`sd
      ensures ok == Passes(old(sd), block) && sd == Spent(old(sd))
      ensures ok ==> data == old(sd).blocks[block]
    {
      ok := Passes(sd, block);
      data := if ok then sd.blocks[block] else ZERO_BLOCK;
      sd := Spent(sd);
    }

    method WriteBlock(block: u32, data: Block) returns (ok: bool)
      modifies this`sd
      ensures ok == Passes(old(sd), block) && sd == Write(old(sd), block, data)
    {
      ok := Passes(sd, block);
      sd := Write(sd, block, data);
    }

    /** `fkfs_header_write`. */
    method HeaderWrite(wipe: bool) returns (ok: bool)
      requires Valid()
      modifies this`sd, this`header
      ensures Fs.Outcome(State(), ok) == Fs.HeaderWrite(old(State()), wipe)
    {
      hide HeaderBytes, Splice, HeaderBody, Crc.Crc16, Write;
      var image := new byte[512](i => 0);
      assert image[..] == ZERO_BLOCK;
      if !wipe {
        var data;
        ok, data := ReadBlock(0);
        if !ok {
          return false;
        }
        CopyInto(image, 0, data);
        SpliceAll(ZERO_BLOCK, data);
      }
      header := Seal(header);
      CopyInto(image, headerIndex * HEADER_SIZE, HeaderBytes(header));
      ok := WriteBlock(0, image[..]);
    }

    /** `fkfs_touch`. */
    method Touch(time: u32) returns (ok: bool)
      requires Valid()
      modifies this`sd, this`header
      ensures Fs.Outcome(State(), ok) == Fs.Touch(old(State()), time)
    {
      header := header.(time := time);
      ok := HeaderWrite(false);
    }

    /** `fkfs_block_ensure`. */
    method BlockEnsure(block: u32) returns (ok: bool)
      requires Valid()
      modifies this`sd, this`cachedBlockNumber, this`cachedBlockDirty, buffer
      ensures Fs.Outcome(State(), ok) == Fs.BlockEnsure(old(State()), block)
    {
      if cachedBlockNumber != block {
        var data;
        ok, data := ReadBlock(block);
        if !ok {
          return false;
        }
        SpliceAll(buffer[..], data);
        CopyInto(buffer, 0, data);
        cachedBlockNumber := block;
        cachedBlockDirty := false;
      }
      return true;
    }

    /** `fkfs_fsync`. */
    method Fsync() returns (ok: bool)
      requires Valid()
      modifies this
      ensures Fs.Outcome(State(), ok) == Fs.Fsync(old(State()))
    {
      hide Fs.HeaderWrite, Write;
      if cachedBlockDirty {
        ok := WriteBlock(header.block, buffer[..]);
        if !ok {
          return false;
        }
        cachedBlockNumber := MAX32;
        cachedBlockDirty := false;
      } else {
        return true;
      }
      header := header.(generation := Inc32(header.generation));
      headerIndex := (headerIndex + 1) % 2;
      assert State() == Fs.Drained(old(State()));
      ok := HeaderWrite(false);
    }

    /** `fkfs_flush`. */
    method Flush(time: u32) returns (ok: bool)
      requires Valid()
      modifies this
      ensures Fs.Outcome(State(), ok) == Fs.Flush(old(State()), time)
    {
      hide Fs.Touch, Fs.Fsync;
      ok := Touch(time);
      if !ok {
        return false;
      }
      ok := Fsync();
    }

    /** `fkfs_file_allocate_block`. */
    method AllocateBlock(f: nat, required: nat) returns (ok: bool)
      requires Valid() && f < 4 && 8 <= required <= 512
      modifies this, buffer
      ensures Fs.Outcome(State(), ok) == Fs.Allocate(old(State()), f, required)
    {
      hide Fs.Fsync, Fs.Advance, Fs.BlockEnsure, SearchFrom;
      var newOffset, visited := header.offset, 0;
      while true
        invariant visited < Fs.SEEK_BLOCKS_MAX
        invariant Fs.Allocate(old(State()), f, required) == Fs.AllocateFrom(State(), f, required, newOffset, visited)
        decreases Fs.SEEK_BLOCKS_MAX - visited, if required + newOffset > 512 then 0 else 1
      {
        ghost var start, move := State(), required + newOffset > 512;
        if required + newOffset > 512 {
          ok := Fsync();
          if !ok {
            return false;
          }
          header := header.(block := Fs.Advance(numberOfBlocks, header.block), offset := 0);
          newOffset, visited := 0, visited + 1;
        }
        ok := BlockEnsure(header.block);
        assert Fs.Outcome(State(), ok) == Fs.Arrive(start, move);
        if !ok {
          return false;
        }
        var found, offset, status := AvailableOffset(
          Versions(header), [files[0].priority, files[1].priority, files[2].priority, files[3].priority],
          buffer[..], files[f].priority, required, newOffset);
        assert Result(offset, status) == Fs.Look(State(), f, required, newOffset);
        if found {
          header := header.(offset := offset);
          return true;
        }
        newOffset := 512;
        if !(visited < Fs.SEEK_BLOCKS_MAX) {
          return false;
        }
      }
    }

    /** `fkfs_file_append`. */
    method Append(f: nat, data: seq<byte>) returns (ok: bool)
      requires Valid() && f < 4 && |data| <= 65528
      modifies this, buffer
      ensures Fs.Outcome(State(), ok) == Fs.Append(old(State()), f, data)
    {
      hide Fs.Fsync, Fs.Allocate, BlockCrc, Splice;
      var required := (ENTRY_SIZE + |data|) % 0x1_0000;
      if |data| == 0 || required > BLOCK_SIZE {
        return false;
      }
      ok := AllocateBlock(f, required);
      if !ok {
        return false;
      }
      ghost var a := State();
      var entry := Entry(f, |data|, |data|, 0);
      entry := entry.(crc := BlockCrc(header.files[f].version, EntryHead(entry), data));
      assert entry == RecEntry(Fs.NewRec(a, f, data));
      CopyInto(buffer, header.offset, EntryBytes(entry));
      CopyInto(buffer, header.offset + ENTRY_SIZE, data);
      SpliceTwice(a.buffer, header.offset, EntryBytes(entry), data);
      cachedBlockDirty := true;
      header := header.(offset := header.offset + required);
      var file := header.files[f];
      file := file.(endBlock := header.block, endOffset := header.offset);
      file := file.(size := (file.size + |data|) % 0x1_0000_0000);
      header := header.(files := header.files[f := file]);
      assert State() == Fs.Put(a, f, data);
      if files[f].sync {
        ok := Fsync();
      }
    }

    /** `fkfs_file_truncate`. */
    method Truncate(f: nat)
      requires Valid() && f < 4
      modifies this`header
      ensures State() == Fs.Truncate(old(State()), f)
    {
      var file := header.files[f];
      file := file.(version := Inc16(file.version));
      file := file.(startBlock := header.block, endBlock := header.block);
      file := file.(startOffset := 0, endOffset := 0, size := 0);
      header := header.(files := header.files[f := file]);
    }

    /** `fkfs_file_truncate_all`. */
    method TruncateAll()
      requires Valid()
      modifies this`header
      ensures State() == Fs.TruncateAll(old(State()))
    {
      var i := 0;
      while i < 4
        invariant 0 <= i <= 4 && State() == TruncatedUpto(old(State()), i)
      {
        Truncate(i);
        i := i + 1;
      }
      TruncatedAll(old(State()));
    }

    /** `fkfs_initialize`. */
    method Initialize(wipe: bool, draws: seq<u16>) returns (ok: bool)
      requires Valid() && |draws| == 4
      modifies this, buffer
      ensures Fs.Outcome(State(), ok) == Fs.Initialize(old(State()), wipe, draws)
    {
      hide HeaderBytes, HeaderFrom, Newest, Slot, Splice, Fs.HeaderWrite;
      numberOfBlocks := |sd.blocks|;
      CopyInto(buffer, 0, [0, 0]);
      ghost var t := State();
      var data;
      ok, data := ReadBlock(0);
      if !ok {
        return false;
      }
      SpliceAll(buffer[..], data);
      CopyInto(buffer, 0, data);
      ghost var l := State();
      assert l == old(State()).(numberOfBlocks := |old(sd).blocks|, buffer := old(sd).blocks[0],
          card := Spent(old(sd)));
      var newest := Newest(buffer[..]);
      if wipe || newest == 2 {
        ok := Format(draws);
      } else {
        Adopt(newest);
        return true;
      }
    }

    /** The wiping branch of `fkfs_initialize`. */
    method Format(draws: seq<u16>) returns (ok: bool)
      requires Valid() && |draws| == 4
      modifies this, buffer
      ensures Fs.Outcome(State(), ok) == Fs.Format(old(State()), draws)
    {
      hide HeaderBytes, Splice, Fs.HeaderWrite;
      header := header.(block := FIRST_BLOCK, generation := 0);
      var i := 0;
      ghost var names := header.files;
      while i < 4
        invariant 0 <= i <= 4
        invariant State() == old(State()).(header := header)
        invariant header == old(header).(block := FIRST_BLOCK, generation := 0, files := header.files)
        invariant forall k :: 0 <= k < 4 ==>
                    header.files[k] == if k < i then Fs.FreshFile(names[k], draws[k]) else names[k]
      {
        header := header.(files := header.files[i := Fs.FreshFile(header.files[i], draws[i])]);
        i := i + 1;
      }
      assert header.files == Fs.FreshHeader(old(header), draws).files;
      assert header == Fs.FreshHeader(old(header), draws);
      CopyInto(buffer, headerIndex * HEADER_SIZE, HeaderBytes(header));
      assert State() == Fs.Stamp(old(State()).(header := Fs.FreshHeader(old(header), draws)));
      ok := HeaderWrite(true);
      if !ok {
        return false;
      }
      header := header.(generation := 1);
      headerIndex := 1;
      CopyInto(buffer, headerIndex * HEADER_SIZE, HeaderBytes(header));
      ok := HeaderWrite(false);
    }

    /** The branch of `fkfs_initialize` that trusts a slot. */
    method Adopt(i: SlotIndex)
      requires Valid()
      modifies this`headerIndex, this`header, buffer
      ensures State() == Fs.Adopt(old(State()), i)
    {
      hide HeaderBytes, HeaderFrom, Slot, Splice;
      headerIndex := i;
      var stored := HeaderFrom(Slot(buffer[..], i));
      var k := 0;
      ghost var was := stored;
      while k < 4
        invariant 0 <= k <= 4 && stored == was.(files := stored.files)
        invariant forall n :: 0 <= n < 4 ==>
                    stored.files[n] == if n < k then was.files[n].(name := header.files[n].name) else was.files[n]
      {
        stored := stored.(files := stored.files[k := stored.files[k].(name := header.files[k].name)]);
        k := k + 1;
      }
      assert stored.files == Fs.WithNames(was, header.files).files;
      CopyInto(buffer, i * HEADER_SIZE, HeaderBytes(stored));
      header := stored;
    }
  }

  lemma SpliceAll(a: Block, data: Block)
    ensures Splice(a, 0, data) == data
  {
  }

  /** Two adjacent copies are one. */
  lemma SpliceTwice(a: Block, offset: nat, x: seq<byte>, y: seq<byte>)
    requires offset + |x| + |y| <= 512
    ensures Splice(Splice(a, offset, x), offset + |x|, y) == Splice(a, offset, x + y)
  {
  }

  ghost function TruncatedUpto(s: Fs.Fs, i: nat): Fs.Fs
    requires i <= 4
  {
    if i == 0 then s else Fs.Truncate(TruncatedUpto(s, i - 1), i - 1)
  }

  lemma TruncatedAll(s: Fs.Fs)
    ensures TruncatedUpto(s, 4) == Fs.TruncateAll(s)
  {
    hide Fs.Truncate;
    assert TruncatedUpto(s, 1) == Fs.Truncate(s, 0);
    assert TruncatedUpto(s, 2) == Fs.Truncate(TruncatedUpto(s, 1), 1);
    assert TruncatedUpto(s, 3) == Fs.Truncate(TruncatedUpto(s, 2), 2);
  }
}
