/** The filesystem as a value, and each operation of `fkfs.cpp` as a function
    from the state before to the state after and the result it returns. */
module Fs {
  import opened Bytes
  import opened Header
  import opened Entry
  import opened Search
  import opened Card

  datatype Setting = Setting(sync: bool, priority: u8)

  type Settings = s: seq<Setting> | |s| == 4
    witness [Setting(false, 0), Setting(false, 0), Setting(false, 0), Setting(false, 0)]

  datatype Fs = Fs(
    headerIndex: SlotIndex, dirty: bool, cached: u32, numberOfBlocks: u32,
    header: Header, buffer: Block, settings: Settings, card: Card)

  datatype Outcome = Outcome(fs: Fs, ok: bool)

  const SEEK_BLOCKS_MAX := 5

  function Priorities(s: Fs): (p: seq<u8>)
    ensures |p| == 4
  {
    [s.settings[0].priority, s.settings[1].priority, s.settings[2].priority, s.settings[3].priority]
  }

  // ----- the header -----

  /** `fkfs_header_write`. */
  function HeaderWrite(s: Fs, wipe: bool): (o: Outcome)
    ensures o.fs.headerIndex == s.headerIndex && |o.fs.card.blocks| == |s.card.blocks|
  {
    if !wipe && !Passes(s.card, 0) then Outcome(s.(card := Spent(s.card)), false)
    else
      var base := if wipe then ZERO_BLOCK else s.card.blocks[0];
      var card := if wipe then s.card else Spent(s.card);
      var header := Seal(s.header);
      var image := Splice(base, s.headerIndex * HEADER_SIZE, HeaderBytes(header));
      Outcome(s.(header := header, card := Write(card, 0, image)), Passes(card, 0))
  }

  /** `fkfs_touch`. */
  function Touch(s: Fs, time: u32): Outcome {
    HeaderWrite(s.(header := s.header.(time := time)), false)
  }

  // ----- the cache -----

  /** `fkfs_block_ensure`: a dirty buffer is replaced without being written. */
  function BlockEnsure(s: Fs, block: u32): Outcome {
    if s.cached == block then Outcome(s, true)
    else if !Passes(s.card, block) then Outcome(s.(card := Spent(s.card)), false)
    else Outcome(s.(buffer := s.card.blocks[block], cached := block, dirty := false, card := Spent(s.card)), true)
  }

  /** The state between the two writes of a sync. */
  function Drained(s: Fs): Fs {
    s.(card := Write(s.card, s.header.block, s.buffer), cached := MAX32, dirty := false,
       header := s.header.(generation := Inc32(s.header.generation)), headerIndex := (s.headerIndex + 1) % 2)
  }

  /** `fkfs_fsync`. */
  function Fsync(s: Fs): (o: Outcome)
    ensures |o.fs.card.blocks| == |s.card.blocks|
  {
    if !s.dirty then Outcome(s, true)
    else if !Passes(s.card, s.header.block) then
      Outcome(s.(card := Write(s.card, s.header.block, s.buffer)), false)
    else HeaderWrite(Drained(s), false)
  }

  /** `fkfs_flush`. */
  function Flush(s: Fs, time: u32): Outcome {
    var t := Touch(s, time);
    if t.ok then Fsync(t.fs) else t
  }

  // ----- appending -----

  /** The next block of the ring. */
  function Advance(n: u32, block: u32): (r: u32)
    ensures n >= 8003 && 8000 <= block < n - 2 ==> 8000 <= r < n - 2
    ensures n >= 8003 && 8000 <= block && block + 1 < n - 2 ==> r == block + 1
  {
    var next := Inc32(block);
    if next == (n - 2) % 0x1_0000_0000 || next == MAX32 then FIRST_BLOCK else next
  }

  /** Sync, then move to the start of the next block. */
  function MoveOn(s: Fs): Outcome {
    var q := Fsync(s);
    if !q.ok then q
    else
      var h := q.fs.header;
      Outcome(q.fs.(header := h.(block := Advance(q.fs.numberOfBlocks, h.block), offset := 0)), true)
  }

  /** Make sure the header's block is the one in the buffer. */
  function Arrive(s: Fs, move: bool): Outcome {
    var m := if move then MoveOn(s) else Outcome(s, true);
    if m.ok then BlockEnsure(m.fs, m.fs.header.block) else m
  }

  /** Look for room in the buffer for an entry of file `f`. */
  function Look(s: Fs, f: nat, required: nat, offset: nat): (r: Result)
    requires f < 4 && required >= 8 && offset + required <= 512
    ensures !r.status.Eob? ==> r.offset + required <= 512
  {
    SearchFrom(Versions(s.header), Priorities(s), s.buffer, s.settings[f].priority, required, offset)
  }

  /** The loop of `fkfs_file_allocate_block`, from one of its turns on. */
  function AllocateFrom(s: Fs, f: nat, required: nat, offset: nat, visited: nat): (o: Outcome)
    requires f < 4 && 8 <= required <= 512 && visited < SEEK_BLOCKS_MAX
    ensures o.ok ==> o.fs.header.offset + required <= 512
    decreases SEEK_BLOCKS_MAX - visited, if required + offset > 512 then 0 else 1
  {
    var move := required + offset > 512;
    var a := Arrive(s, move);
    if !a.ok then a
    else
      var r := Look(a.fs, f, required, if move then 0 else offset);
      if !r.status.Eob? then Outcome(a.fs.(header := a.fs.header.(offset := r.offset)), true)
      else
        var v := if move then visited + 1 else visited;
        if v < SEEK_BLOCKS_MAX then AllocateFrom(a.fs, f, required, 512, v) else Outcome(a.fs, false)
  }

  /** `fkfs_file_allocate_block`. */
  function Allocate(s: Fs, f: nat, required: nat): (o: Outcome)
    requires f < 4 && 8 <= required <= 512
    ensures o.ok ==> o.fs.header.offset + required <= 512
  {
    AllocateFrom(s, f, required, s.header.offset, 0)
  }

  /** The entry an append of `data` to file `f` would write now. */
  function NewRec(s: Fs, f: nat, data: seq<byte>): Rec
    requires f < 4 && 1 <= |data| <= MAX_PAYLOAD
  {
    Rec(f, s.header.files[f].version, data)
  }

  /** Put the entry into the buffer at the header's offset and account for it. */
  function Put(s: Fs, f: nat, data: seq<byte>): Fs
    requires f < 4 && 1 <= |data| <= MAX_PAYLOAD && s.header.offset + ENTRY_SIZE + |data| <= 512
  {
    var end := s.header.offset + ENTRY_SIZE + |data|;
    var file := s.header.files[f].(endBlock := s.header.block, endOffset := end,
                                   size := (s.header.files[f].size + |data|) % 0x1_0000_0000);
    s.(buffer := Splice(s.buffer, s.header.offset, RecBytes(NewRec(s, f, data))), dirty := true,
       header := s.header.(offset := end, files := s.header.files[f := file]))
  }

  /** Is `size` accepted by the guard of `fkfs_file_append`, with `required` in 16 bits? */
  predicate Admitted(size: nat) {
    size != 0 && (ENTRY_SIZE + size) % 0x1_0000 <= 512
  }

  /** The guard refuses the empty payload and everything that does not fit a
      block, except that for the last seven sizes the 16-bit sum has wrapped. */
  lemma GuardWraps(size: u16)
    ensures Admitted(size) <==> 1 <= size <= MAX_PAYLOAD || size >= 65529
    ensures Admitted(size) && ENTRY_SIZE + size > 512 <==> size >= 65529
  {
  }

  /** The first such size: it passes the guard as if its entry needed no room. */
  lemma GuardWrapsAt65529()
    ensures Admitted(65529) && (ENTRY_SIZE + 65529) % 0x1_0000 == 0
  {
  }

  /** `fkfs_file_append`. */
  function Append(s: Fs, f: nat, data: seq<byte>): Outcome
    requires f < 4 && |data| <= 65528
  {
    if !Admitted(|data|) then Outcome(s, false)
    else
      var a := Allocate(s, f, ENTRY_SIZE + |data|);
      if !a.ok then a
      else
        var p := Put(a.fs, f, data);
        if p.settings[f].sync then Fsync(p) else Outcome(p, true)
  }

  // ----- truncating -----

  /** `fkfs_file_truncate`. */
  function Truncate(s: Fs, f: nat): Fs
    requires f < 4
  {
    var file := s.header.files[f];
    s.(header := s.header.(files := s.header.files[f := FileHeader(
         file.name, Inc16(file.version), s.header.block, 0, s.header.block, 0, 0)]))
  }

  /** `fkfs_file_truncate_all`. */
  function TruncateAll(s: Fs): Fs {
    Truncate(Truncate(Truncate(Truncate(s, 0), 1), 2), 3)
  }

  // ----- starting -----

  /** `fkfs_create`. */
  function Create(card: Card): Fs {
    Fs(0, false, 0, 0, EMPTY_HEADER, ZERO_BLOCK,
       [Setting(false, 0), Setting(false, 0), Setting(false, 0), Setting(false, 0)], card)
  }

  /** `fkfs_initialize_file`; `version` is drawn by the caller's random source. */
  function InitializeFile(s: Fs, f: nat, setting: Setting, name: Name, version: u16): Fs
    requires f < 4
  {
    var file := s.header.files[f].(name := name, version := version, startBlock := FIRST_BLOCK,
                                   startOffset := 0, endOffset := 0);
    s.(settings := s.settings[f := setting], header := s.header.(files := s.header.files[f := file]))
  }

  /** A file of a new filesystem. */
  function FreshFile(file: FileHeader, version: u16): FileHeader {
    FileHeader(file.name, version, FIRST_BLOCK, 0, FIRST_BLOCK, 0, 0)
  }

  function FreshHeader(h: Header, draws: seq<u16>): Header
    requires |draws| == 4
  {
    h.(block := FIRST_BLOCK, generation := 0,
       files := [FreshFile(h.files[0], draws[0]), FreshFile(h.files[1], draws[1]),
                 FreshFile(h.files[2], draws[2]), FreshFile(h.files[3], draws[3])])
  }

  /** The header's own image copied over one slot of the buffer. */
  function Stamp(s: Fs): Fs {
    s.(buffer := Splice(s.buffer, s.headerIndex * HEADER_SIZE, HeaderBytes(s.header)))
  }

  /** The wiping branch of `fkfs_initialize`. */
  function Format(s: Fs, draws: seq<u16>): Outcome
    requires |draws| == 4
  {
    var w := HeaderWrite(Stamp(s.(header := FreshHeader(s.header, draws))), true);
    if !w.ok then w
    else HeaderWrite(Stamp(w.fs.(header := w.fs.header.(generation := 1), headerIndex := 1)), false)
  }

  function WithNames(h: Header, names: Files): Header {
    h.(files := [h.files[0].(name := names[0].name), h.files[1].(name := names[1].name),
                 h.files[2].(name := names[2].name), h.files[3].(name := names[3].name)])
  }

  /** The branch of `fkfs_initialize` that trusts slot `i` of the loaded block. */
  function Adopt(s: Fs, i: nat): Fs
    requires i < 2
  {
    var header := WithNames(HeaderFrom(Slot(s.buffer, i)), s.header.files);
    Stamp(s.(headerIndex := i, header := header))
  }

  /** `fkfs_initialize`; `draws` are the random versions it may need. The call
      that clears the buffer first clears only `sizeof(SD_RAW_BLOCK_SIZE)`, two bytes. */
  function Initialize(s: Fs, wipe: bool, draws: seq<u16>): Outcome
    requires |draws| == 4
  {
    var t := s.(numberOfBlocks := |s.card.blocks|, buffer := Splice(s.buffer, 0, [0, 0]), card := Spent(s.card));
    if !Passes(s.card, 0) then Outcome(t, false)
    else
      var l := t.(buffer := s.card.blocks[0]);
      var i := Newest(l.buffer);
      if wipe || i == 2 then Format(l, draws) else Outcome(Adopt(l, i), true)
  }
}
