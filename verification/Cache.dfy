/** The one-block write-back cache refines a card that is written through, for
    every card content and every pattern of device faults. */
module Cache {
  import opened Bytes
  import Crc
  import opened Header
  import opened Entry
  import opened Card
  import opened Search
  import opened Fs

  /** The log's ring: blocks 8000 up to, not including, the last two. */
  ghost predicate Ring(s: Fs) {
    && s.numberOfBlocks == |s.card.blocks| >= 8003
    && 8000 <= s.header.block < s.numberOfBlocks - 2
  }

  ghost predicate Coherent(s: Fs) {
    && Ring(s)
    && (s.dirty ==> s.cached == s.header.block)
    && (!s.dirty && 0 < s.cached < s.numberOfBlocks ==> s.buffer == s.card.blocks[s.cached])
  }

  /** The content of a block as the filesystem sees it: the card overlaid by a dirty buffer. */
  ghost function View(s: Fs, b: nat): Block
    requires b < |s.card.blocks|
  {
    if s.dirty && b == s.header.block then s.buffer else s.card.blocks[b]
  }

  /** The data blocks look the same in both states. */
  ghost predicate SameView(s: Fs, t: Fs) {
    && |s.card.blocks| == |t.card.blocks|
    && forall b :: 0 < b < |s.card.blocks| ==> View(t, b) == View(s, b)
  }

  /** What no allocation changes. */
  ghost predicate SameFiles(s: Fs, t: Fs) {
    t.header.files == s.header.files && t.settings == s.settings && t.numberOfBlocks == s.numberOfBlocks
    && t.header.version == s.header.version && t.header.time == s.header.time
  }

  lemma HeaderWriteKeeps(s: Fs, wipe: bool)
    requires Coherent(s)
    ensures var t := HeaderWrite(s, wipe).fs;
            Coherent(t) && SameView(s, t) && SameFiles(s, t)
            && t.header == s.header.(crc := t.header.crc) && t.dirty == s.dirty && t.cached == s.cached
            && t.buffer == s.buffer && t.headerIndex == s.headerIndex
  {
    hide HeaderBytes, Splice, Crc.Crc16, HeaderBody;
  }

  /** A sync leaves every data block as it was seen, whether it succeeds or not. */
  lemma FsyncKeeps(s: Fs)
    requires Coherent(s)
    ensures var o := Fsync(s);
            Coherent(o.fs) && SameView(s, o.fs) && SameFiles(s, o.fs)
            && o.fs.header == s.header.(generation := o.fs.header.generation, crc := o.fs.header.crc)
            && (o.ok ==> !o.fs.dirty) && (o.ok && s.dirty ==> o.fs.cached == 0xFFFF_FFFF)
            && (!o.fs.dirty ==> forall b :: 0 < b < |s.card.blocks| ==> o.fs.card.blocks[b] == View(s, b))
  {
    hide HeaderWrite;
    if s.dirty && Passes(s.card, s.header.block) {
      var d := Drained(s);
      assert Coherent(d) && SameView(s, d);
      HeaderWriteKeeps(d, false);
    }
  }

  /** Loading another block is harmless exactly when no unsynced bytes are in the buffer. */
  lemma EnsureKeeps(s: Fs, block: u32)
    requires Coherent(s) && (!s.dirty || s.cached == block)
    ensures var o := BlockEnsure(s, block);
            Coherent(o.fs) && SameView(s, o.fs) && SameFiles(s, o.fs) && o.fs.header == s.header
            && o.fs.dirty == s.dirty && o.fs.card.blocks == s.card.blocks
            && (o.ok && 0 < block < |s.card.blocks| ==> o.fs.cached == block && o.fs.buffer == View(s, block))
  {
  }

  /** A read through a dirty cache drops the unsynced buffer: the view survives
      if and only if the buffer had nothing the card lacks. */
  lemma EnsureDropsDirty(s: Fs, block: u32)
    requires Coherent(s) && s.dirty && block != s.cached && BlockEnsure(s, block).ok
    ensures !BlockEnsure(s, block).fs.dirty
    ensures SameView(s, BlockEnsure(s, block).fs) <==> s.buffer == s.card.blocks[s.header.block]
  {
    var t := BlockEnsure(s, block).fs;
    assert View(t, s.header.block) == s.card.blocks[s.header.block];
    assert View(s, s.header.block) == s.buffer;
  }

  lemma MoveOnKeeps(s: Fs)
    requires Coherent(s)
    ensures var o := MoveOn(s);
            Coherent(o.fs) && SameView(s, o.fs) && SameFiles(s, o.fs)
            && (o.ok ==> !o.fs.dirty && o.fs.header.offset == 0
                         && o.fs.header.block == Advance(s.numberOfBlocks, s.header.block))
            && (!o.ok ==> o.fs.header.block == s.header.block && o.fs.header.offset == s.header.offset)
  {
    hide Fsync, Advance;
    FsyncKeeps(s);
  }

  lemma ArriveKeeps(s: Fs, move: bool)
    requires Coherent(s)
    ensures var o := Arrive(s, move);
            Coherent(o.fs) && SameView(s, o.fs) && SameFiles(s, o.fs)
            && (o.ok ==> o.fs.cached == o.fs.header.block && o.fs.buffer == View(s, o.fs.header.block)
                         && o.fs.header.block
                             == (if move then Advance(s.numberOfBlocks, s.header.block) else s.header.block)
                         && o.fs.header.offset == if move then 0 else s.header.offset)
            && (!o.ok ==> o.fs.header.block == s.header.block
                          || (move && o.fs.header.block == Advance(s.numberOfBlocks, s.header.block)))
  {
    hide MoveOn, BlockEnsure, Advance;
    var m := if move then MoveOn(s) else Outcome(s, true);
    if move { MoveOnKeeps(s); }
    if m.ok { EnsureKeeps(m.fs, m.fs.header.block); }
  }

  // ----- the allocator -----

  function AdvanceN(n: u32, block: u32, k: nat): u32
    decreases k
  {
    if k == 0 then block else AdvanceN(n, Advance(n, block), k - 1)
  }

  lemma OnceRound(m: nat, x: nat)
    requires m > 0
    ensures (m + x) % m == x % m
  {
    var q, r := x / m, x % m;
    assert m + x == (q + 1) * m + r;
    DivisionIsUnique(m + x, m, q + 1, r);
  }

  lemma DivisionIsUnique(a: nat, m: nat, q: nat, r: nat)
    requires r < m && a == q * m + r
    ensures a % m == r
  {
    var q', r' := a / m, a % m;
    assert a == q' * m + r';
    if q < q' {
      Further(m, q, q');
    } else if q' < q {
      Further(m, q', q);
    }
  }

  lemma Further(m: nat, q: nat, q': nat)
    requires q < q'
    ensures q' * m >= q * m + m
  {
    var d := q' - q - 1;
    assert q' * m == (q + 1 + d) * m == q * m + m + d * m;
  }

  lemma NotRound(m: nat, x: nat)
    requires x < m
    ensures x % m == x
  {
  }

  /** The next block, or the first after the last before the final two. */
  lemma AdvanceStep(n: u32, block: u32)
    requires n >= 8003 && 8000 <= block < n - 2
    ensures Advance(n, block) == if block == n - 3 then 8000 else block + 1
  {
  }

  /** The ring: `k` advances lead `k` blocks on, from the last one before the
      final two back to block 8000. */
  lemma {:induction false} AdvancesRound(n: u32, block: u32, k: nat)
    requires n >= 8003 && 8000 <= block < n - 2
    ensures AdvanceN(n, block, k) == 8000 + (block - 8000 + k) % (n - 8002)
    decreases k
  {
    hide Advance;
    var m, x := n - 8002, block - 8000;
    if k == 0 {
      NotRound(m, x);
    } else {
      AdvanceStep(n, block);
      AdvancesRound(n, Advance(n, block), k - 1);
      if x + 1 == m {
        OnceRound(m, k - 1);
        assert x + k == m + (k - 1);
      } else {
        assert x + 1 + (k - 1) == x + k;
      }
    }
  }

  /** No transfer on this card ever fails. */
  ghost predicate Working(c: Card) {
    |c.script| == 0
  }

  lemma FsyncWorks(s: Fs)
    requires Coherent(s) && Working(s.card)
    ensures Fsync(s).ok && Working(Fsync(s).fs.card)
  {
    hide HeaderBytes, Splice, Seal;
  }

  lemma ArriveWorks(s: Fs, move: bool)
    requires Coherent(s) && Working(s.card)
    ensures Arrive(s, move).ok && Working(Arrive(s, move).fs.card)
  {
    hide Fsync;
    if move { FsyncWorks(s); MoveOnKeeps(s); }
  }

  /** File `f` may write at `offset` of `b`: nothing live is there, or an entry
      with enough room whose file is less important. */
  ghost predicate MayTake(s: Fs, f: nat, required: nat, b: Block, offset: nat)
    requires f < 4
  {
    Check(Versions(s.header), b, offset).Good? ==>
      var e := EntryAt(b, offset);
      s.settings[e.file].priority > s.settings[f].priority && e.available >= required
  }

  lemma LookMayTake(s: Fs, t: Fs, f: nat, required: nat, offset: nat)
    requires f < 4 && required >= 8 && offset + required <= 512 && SameFiles(s, t)
    ensures var r := Look(t, f, required, offset);
            !r.status.Eob? ==> MayTake(s, f, required, t.buffer, r.offset)
  {
    hide Check, EntryAt, SearchFrom;
    var k := SearchFindsFirst(Versions(t.header), Priorities(t), t.buffer, t.settings[f].priority, required, offset);
  }

  lemma SameMayTake(s: Fs, t: Fs, f: nat, required: nat)
    requires f < 4 && SameFiles(s, t)
    ensures forall b: Block, offset :: MayTake(t, f, required, b, offset) ==> MayTake(s, f, required, b, offset)
  {
    hide Check, EntryAt;
  }

  /** From any turn of the loop: at most five advances in all, exactly five
      when a working device still yields failure. */
  lemma {:induction false} AllocateFromSafe(s: Fs, f: nat, required: nat, offset: nat, visited: nat) returns (k: nat)
    requires Coherent(s) && f < 4 && 8 <= required <= 512 && visited < SEEK_BLOCKS_MAX
    ensures var o := AllocateFrom(s, f, required, offset, visited);
            && Coherent(o.fs) && SameView(s, o.fs) && SameFiles(s, o.fs)
            && o.fs.header.block == AdvanceN(s.numberOfBlocks, s.header.block, k)
            && visited + k <= SEEK_BLOCKS_MAX
            && (o.ok ==> o.fs.cached == o.fs.header.block && o.fs.buffer == View(s, o.fs.header.block)
                         && MayTake(s, f, required, o.fs.buffer, o.fs.header.offset))
            && (Working(s.card) && !o.ok ==> visited + k == SEEK_BLOCKS_MAX)
    decreases SEEK_BLOCKS_MAX - visited, if required + offset > 512 then 0 else 1
  {
    hide Arrive, Look, Advance, MayTake;
    var move := required + offset > 512;
    var a := Arrive(s, move);
    ArriveKeeps(s, move);
    var n, b := s.numberOfBlocks, s.header.block;
    assert AdvanceN(n, b, 1) == AdvanceN(n, Advance(n, b), 0) == Advance(n, b);
    if Working(s.card) { ArriveWorks(s, move); }
    k := if a.fs.header.block == b && !(move && a.ok) then 0 else 1;
    if a.ok {
      var r := Look(a.fs, f, required, if move then 0 else offset);
      LookMayTake(s, a.fs, f, required, if move then 0 else offset);
      var v := visited + k;
      if r.status.Eob? && v < SEEK_BLOCKS_MAX {
        var k' := AllocateFromSafe(a.fs, f, required, 512, v);
        SameMayTake(s, a.fs, f, required);
        k := k + k';
        assert AdvanceN(n, b, k) == AdvanceN(n, a.fs.header.block, k');
      }
    }
  }

  /** Allocation is safe for arbitrary block contents and device faults: a
      place it returns fits its block, the block is the old one advanced at most
      five times round the ring, no live entry is there unless its file is less
      important, nothing seen on the card changes, and a working
      device refuses only after exactly five advances. */
  lemma AllocateIsSafe(s: Fs, f: nat, required: nat) returns (k: nat)
    requires Coherent(s) && f < 4 && 8 <= required <= 512
    ensures k <= 5
    ensures var o := Allocate(s, f, required);
            && Coherent(o.fs) && SameView(s, o.fs) && SameFiles(s, o.fs)
            && 8000 <= o.fs.header.block < s.numberOfBlocks - 2
            && o.fs.header.block == 8000 + (s.header.block - 8000 + k) % (s.numberOfBlocks - 8002)
            && (o.ok ==> o.fs.header.offset + required <= 512
                         && o.fs.cached == o.fs.header.block && o.fs.buffer == View(s, o.fs.header.block)
                         && MayTake(s, f, required, o.fs.buffer, o.fs.header.offset))
            && (Working(s.card) && !o.ok ==> k == 5)
  {
    hide AllocateFrom, MayTake;
    k := AllocateFromSafe(s, f, required, s.header.offset, 0);
    AdvancesRound(s.numberOfBlocks, s.header.block, k);
  }

  // ----- the settings -----

  lemma FsyncSettings(s: Fs)
    ensures Fsync(s).fs.settings == s.settings
  {
    hide HeaderBytes, Splice, Seal, Write;
  }

  lemma ArriveSettings(s: Fs, move: bool)
    ensures Arrive(s, move).fs.settings == s.settings
  {
    hide Fsync;
    FsyncSettings(s);
  }

  lemma {:induction false} AllocateSettings(s: Fs, f: nat, required: nat, offset: nat, visited: nat)
    requires f < 4 && 8 <= required <= 512 && visited < SEEK_BLOCKS_MAX
    ensures AllocateFrom(s, f, required, offset, visited).fs.settings == s.settings
    decreases SEEK_BLOCKS_MAX - visited, if required + offset > 512 then 0 else 1
  {
    hide Arrive, Look;
    var move := required + offset > 512;
    ArriveSettings(s, move);
    var a, v := Arrive(s, move), if move then visited + 1 else visited;
    if a.ok && v < SEEK_BLOCKS_MAX { AllocateSettings(a.fs, f, required, 512, v); }
  }

  /** No append changes which files are sync files. */
  lemma AppendSettings(s: Fs, f: nat, data: seq<byte>)
    requires f < 4 && |data| <= 65528
    ensures Append(s, f, data).fs.settings == s.settings
    ensures Admitted(|data|) ==> Allocate(s, f, ENTRY_SIZE + |data|).fs.settings == s.settings
  {
    hide AllocateFrom, Fsync, Splice, RecBytes;
    if Admitted(|data|) {
      AllocateSettings(s, f, ENTRY_SIZE + |data|, s.header.offset, 0);
      var a := Allocate(s, f, ENTRY_SIZE + |data|);
      if a.ok { FsyncSettings(Put(a.fs, f, data)); }
    }
  }

  // ----- append -----

  lemma PutKeeps(s: Fs, f: nat, data: seq<byte>)
    requires f < 4 && 1 <= |data| <= MAX_PAYLOAD && s.header.offset + ENTRY_SIZE + |data| <= 512
    ensures var p := Put(s, f, data);
            p.settings == s.settings && p.card == s.card && p.dirty && p.header.block == s.header.block
  {
    hide Splice, RecBytes;
  }

  /** Putting an entry touches the buffer and the header, never the card. */
  lemma PutFacts(s: Fs, f: nat, data: seq<byte>)
    requires Coherent(s) && f < 4 && 1 <= |data| <= MAX_PAYLOAD && s.header.offset + ENTRY_SIZE + |data| <= 512
    requires s.cached == s.header.block
    ensures var p := Put(s, f, data);
            && Coherent(p) && p.card == s.card && p.headerIndex == s.headerIndex && p.settings == s.settings
            && p.dirty && p.header.generation == s.header.generation && p.header.block == s.header.block
            && p.header.offset == s.header.offset + ENTRY_SIZE + |data|
            && p.numberOfBlocks == s.numberOfBlocks
  {
    hide Splice, RecBytes;
  }

  /** `t` shows what `s` shows, except that one block of the ring now holds
      the new entry just below the header's offset. */
  ghost predicate Wrote(s: Fs, t: Fs, f: nat, data: seq<byte>)
    requires f < 4
  {
    && |t.card.blocks| == |s.card.blocks|
    && 8000 <= t.header.block < |s.card.blocks| - 2
    && 1 <= |data| <= MAX_PAYLOAD && ENTRY_SIZE + |data| <= t.header.offset <= 512
    && (forall b :: 0 < b < |s.card.blocks| && b != t.header.block ==> View(t, b) == View(s, b))
    && View(t, t.header.block)
       == Splice(View(s, t.header.block), t.header.offset - ENTRY_SIZE - |data|, RecBytes(NewRec(s, f, data)))
  }

  /** An append changes the view only inside its own bytes of one block of the
      ring; a failed append changes nothing, or fails after doing the same. */
  lemma AppendIsLocal(s: Fs, f: nat, data: seq<byte>)
    requires Coherent(s) && f < 4 && |data| <= 65528
    ensures Coherent(Append(s, f, data).fs)
    ensures Wrote(s, Append(s, f, data).fs, f, data) || (!Append(s, f, data).ok && SameView(s, Append(s, f, data).fs))
  {
    hide Allocate, Splice, RecBytes, Fsync, MayTake;
    if Admitted(|data|) {
      var k := AllocateIsSafe(s, f, ENTRY_SIZE + |data|);
      var a := Allocate(s, f, ENTRY_SIZE + |data|);
      if a.ok {
        var p := Put(a.fs, f, data);
        assert Coherent(p);
        assert Wrote(s, p, f, data);
        FsyncKeeps(p);
      }
    }
  }
}
