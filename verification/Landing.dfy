/** Where the next entry goes on a clean filesystem whose card holds more, or
    less, than its header counts, and what is read then. */
module Landing {
  import opened Bytes
  import opened Header
  import opened Entry
  import opened Search
  import opened Card
  import opened Fs
  import opened Cache
  import opened HeaderProtocol
  import opened Layout
  import opened Scan
  import opened ScanLog
  import opened Journal
  import opened LiveVolume
  import opened Unsynced

  // ----- the allocator on a clean cache -----

  /** A clean filesystem on a working device. */
  ghost predicate Idle(u: Fs) {
    Coherent(u) && !u.dirty && Working(u.card)
  }

  /** `a` is `u` with another block loaded and another place in its header. */
  ghost predicate Placed(u: Fs, a: Fs, block: u32, offset: u16) {
    && Idle(a) && a.card.blocks == u.card.blocks && a.settings == u.settings
    && a.header == u.header.(block := block, offset := offset)
    && a.cached == block < |u.card.blocks| && a.buffer == u.card.blocks[block]
  }

  lemma IdleArrives(u: Fs, move: bool)
    requires Idle(u) && (move ==> Roomy(u))
    ensures Arrive(u, move).ok
    ensures if move then Placed(u, Arrive(u, move).fs, u.header.block + 1, 0)
            else Placed(u, Arrive(u, move).fs, u.header.block, u.header.offset)
  {
    hide Advance;
    if move {
      CleanFsync(u);
      assert Advance(u.numberOfBlocks, u.header.block) == u.header.block + 1;
    }
    ArriveKeeps(u, move);
  }

  /** What the search returns for an entry of file `f` in block `b`. */
  ghost function Sought(u: Fs, f: nat, required: nat, b: Block, offset: nat): Result
    requires f < 4 && required >= 8 && offset + required <= 512
  {
    SearchFrom(Versions(u.header), Priorities(u), b, u.settings[f].priority, required, offset)
  }

  lemma SameSearch(u: Fs, a: Fs, f: nat, required: nat, offset: nat, block: u32, at: u16)
    requires f < 4 && required >= 8 && offset + required <= 512 && Placed(u, a, block, at)
    ensures Look(a, f, required, offset) == Sought(u, f, required, u.card.blocks[block], offset)
  {
    hide SearchFrom;
  }

  /** One turn of the allocator without a move. */
  lemma AllocatesHere(u: Fs, f: nat, required: nat) returns (a: Fs)
    requires Idle(u) && f < 4 && 8 <= required && u.header.offset + required <= 512
    ensures u.header.block < |u.card.blocks|
    ensures var r := Sought(u, f, required, u.card.blocks[u.header.block], u.header.offset);
            && Placed(u, a, u.header.block, if r.status.Eob? then u.header.offset else r.offset)
            && Allocate(u, f, required)
               == if r.status.Eob? then AllocateFrom(a, f, required, 512, 0) else Outcome(a, true)
  {
    hide Arrive, SearchFrom, Idle;
    IdleArrives(u, false);
    var b := Arrive(u, false).fs;
    SameSearch(u, b, f, required, u.header.offset, u.header.block, u.header.offset);
    var r := Sought(u, f, required, u.card.blocks[u.header.block], u.header.offset);
    a := if r.status.Eob? then b else b.(header := b.header.(offset := r.offset));
    PlacedAt(u, b, u.header.block, u.header.offset, a.header.offset);
    hide Placed;
    UnrollHere(u, f, required, u.header.offset, 0);
  }

  lemma PlacedAt(u: Fs, b: Fs, block: u32, offset: u16, at: u16)
    requires Placed(u, b, block, offset)
    ensures Placed(u, b.(header := b.header.(offset := at)), block, at)
  {
  }

  lemma UnrollHere(u: Fs, f: nat, required: nat, offset: nat, visited: nat)
    requires f < 4 && 8 <= required && offset + required <= 512 && visited < SEEK_BLOCKS_MAX && Arrive(u, false).ok
    ensures var b := Arrive(u, false).fs;
            var r := Look(b, f, required, offset);
            AllocateFrom(u, f, required, offset, visited)
            == if r.status.Eob? then AllocateFrom(b, f, required, 512, visited)
               else Outcome(b.(header := b.header.(offset := r.offset)), true)
  {
    hide Arrive, Look;
  }

  lemma UnrollMove(u: Fs, f: nat, required: nat, offset: nat, visited: nat)
    requires f < 4 && 8 <= required <= 512 && offset + required > 512 && visited < 4 && Arrive(u, true).ok
    ensures var b := Arrive(u, true).fs;
            var r := Look(b, f, required, 0);
            AllocateFrom(u, f, required, offset, visited)
            == if r.status.Eob? then AllocateFrom(b, f, required, 512, visited + 1)
               else Outcome(b.(header := b.header.(offset := r.offset)), true)
  {
    hide Arrive, Look;
  }

  /** One turn of the allocator that moves on. */
  lemma AllocatesNext(u: Fs, f: nat, required: nat, offset: nat, visited: nat) returns (a: Fs)
    requires Idle(u) && Roomy(u) && f < 4 && 8 <= required <= 512 && offset + required > 512 && visited < 4
    ensures u.header.block + 1 < |u.card.blocks|
    ensures var r := Sought(u, f, required, u.card.blocks[u.header.block + 1], 0);
            && Placed(u, a, u.header.block + 1, if r.status.Eob? then 0 else r.offset)
            && AllocateFrom(u, f, required, offset, visited)
               == if r.status.Eob? then AllocateFrom(a, f, required, 512, visited + 1) else Outcome(a, true)
  {
    hide Arrive, SearchFrom, Idle;
    IdleArrives(u, true);
    var b := Arrive(u, true).fs;
    SameSearch(u, b, f, required, 0, u.header.block + 1, 0);
    var r := Sought(u, f, required, u.card.blocks[u.header.block + 1], 0);
    a := if r.status.Eob? then b else b.(header := b.header.(offset := r.offset));
    PlacedAt(u, b, u.header.block + 1, 0, a.header.offset);
    hide Placed;
    UnrollMove(u, f, required, offset, visited);
  }

  // ----- the append -----

  /** The header after one more entry of file `f`. */
  ghost predicate OneMore(h: Header, g: Header, f: nat, n: nat)
    requires f < 4
  {
    && g.block == h.block && g.offset == h.offset + ENTRY_SIZE + n && Versions(g) == Versions(h)
    && g.files == h.files[f := Grown(h.files[f], h.block, g.offset, n)]
  }

  lemma PutHeader(s: Fs, f: nat, data: seq<byte>)
    requires f < 4 && 1 <= |data| <= MAX_PAYLOAD && s.header.offset + ENTRY_SIZE + |data| <= 512
    ensures OneMore(s.header, Put(s, f, data).header, f, |data|)
  {
    hide Put;
    PutGrows(s, f, data);
  }

  lemma SyncHeader(s: Fs, h: Header, f: nat, n: nat)
    requires f < 4 && Coherent(s) && Working(s.card) && OneMore(h, s.header, f, n)
    ensures Fsync(s).ok && OneMore(h, Fsync(s).fs.header, f, n)
  {
    hide Fsync, Grown;
    FsyncKeeps(s);
    FsyncWorks(s);
  }

  /** `v` is `c` with `w` written into block `b`, as far as data blocks go. */
  ghost predicate Scribbled(c: Blocks, v: Blocks, b: nat, at: nat, w: seq<byte>) {
    && |v| == |c| && b < |c| && at + |w| <= 512 && v[b] == Splice(c[b], at, w)
    && forall i :: 8000 <= i < |c| && i != b ==> v[i] == c[i]
  }

  lemma WroteBlocks(u: Fs, t: Fs, f: nat, data: seq<byte>)
    requires Coherent(u) && !u.dirty && f < 4 && Wrote(u, t, f, data) && Coherent(t)
    ensures Ring(t) && Ring(u)
    ensures Scribbled(u.card.blocks, ViewBlocks(t), t.header.block, t.header.offset - ENTRY_SIZE - |data|,
                      RecBytes(NewRec(u, f, data)))
  {
    hide Splice, RecBytes;
    assert forall b :: 0 <= b < |u.card.blocks| ==> ViewBlocks(t)[b] == View(t, b) && View(u, b) == u.card.blocks[b];
  }

  /** An append to a clean filesystem whose allocation found the place of `a`:
      it succeeds, and its entry is written there and counted. */
  lemma AppendLandsAt(u: Fs, f: nat, data: seq<byte>, a: Fs)
    requires Idle(u) && f < 4 && 1 <= |data| <= MAX_PAYLOAD && Allocate(u, f, ENTRY_SIZE + |data|) == Outcome(a, true)
    requires Placed(u, a, a.header.block, a.header.offset)
    ensures a.header.offset + ENTRY_SIZE + |data| <= 512
    ensures var t := Append(u, f, data).fs;
            && Append(u, f, data).ok && Coherent(t) && Ring(t) && OneMore(a.header, t.header, f, |data|)
            && Scribbled(u.card.blocks, ViewBlocks(t), a.header.block, a.header.offset, RecBytes(NewRec(u, f, data)))
  {
    hide Allocate, Put, Fsync, Coherent, Working, OneMore, Splice, RecBytes, Wrote, Scribbled;
    PutFacts(a, f, data);
    PutHeader(a, f, data);
    SyncHeader(Put(a, f, data), a.header, f, |data|);
    AppendIsLocal(u, f, data);
    var t := Append(u, f, data).fs;
    WroteBlocks(u, t, f, data);
    OneMorePlace(a.header, t.header, f, |data|);
  }

  lemma OneMorePlace(h: Header, g: Header, f: nat, n: nat)
    requires f < 4 && OneMore(h, g, f, n)
    ensures g.block == h.block && g.offset == h.offset + ENTRY_SIZE + n
  {
  }

  // ----- reading -----

  lemma HoldsPut(b: Block, rs: seq<Rec>, m: nat, r: Rec)
    requires m <= |rs| && Holds(b, rs) && Off(rs, m) + |RecBytes(r)| <= 512
    ensures Holds(Splice(b, Off(rs, m), RecBytes(r)), rs[..m] + [r])
    ensures Off(rs[..m] + [r], m) == Off(rs, m) && Off(rs[..m] + [r], m + 1) == Off(rs, m) + |RecBytes(r)|
  {
    hide RecBytes, Encode;
    var c, rs' := Splice(b, Off(rs, m), RecBytes(r)), rs[..m] + [r];
    HoldsPrefix(b, rs, m);
    assert rs'[..m] == rs[..m] && rs'[..m + 1] == rs';
    OffStep(rs', m);
    assert c[..Off(rs, m)] == b[..Off(rs, m)];
    assert c[..|Encode(rs')|] == Encode(rs[..m]) + RecBytes(r);
  }

  /** The log up to record `m` of block `i`, then `r`. */
  function Overwritten(log: Log, i: nat, m: nat, r: Rec): Log
    requires i < |log| && m <= |log[i]|
  {
    log[..i] + [log[i][..m] + [r]]
  }

  lemma OverwrittenOnCard(c: Blocks, v: Blocks, log: Log, i: nat, m: nat, r: Rec)
    requires Bears(c, log) && i < |log| && m <= |log[i]|
    requires Scribbled(c, v, 8000 + i, Off(log[i], m), RecBytes(r))
    ensures OnCard(v, Overwritten(log, i, m, r), i, m + 1)
    ensures Off(Overwritten(log, i, m, r)[i], m + 1) == Off(log[i], m) + |RecBytes(r)|
    ensures Off(Overwritten(log, i, m, r)[i], m) == Off(log[i], m)
  {
    hide Full, Encode, RecBytes, Off, Splice;
    var rs, log' := log[i][..m] + [r], Overwritten(log, i, m, r);
    FullHolds(c[8000 + i], log[i]);
    HoldsPut(c[8000 + i], log[i], m, r);
    assert rs[..m + 1] == rs;
    forall k | 0 <= k < i
      ensures Full(v[8000 + k], log'[k])
    {
      assert v[8000 + k] == c[8000 + k];
    }
  }

  /** A file that starts at block `k` and whose newest entry `r` was written over
      record `m` of block `i` reads as its records up to there, then `r`. */
  lemma ReadsLanding(c: Blocks, v: Blocks, log: Log, i: nat, m: nat, r: Rec, versions: seq<u16>, k: nat, t: Token)
    requires Bears(c, log) && k <= i < |log| && m <= |log[i]|
    requires Scribbled(c, v, 8000 + i, Off(log[i], m), RecBytes(r))
    requires |versions| == 4 && versions[r.file] == r.version
    requires t == Token(r.file, 8000 + k, 0, 8000 + i, Off(log[i], m) + |RecBytes(r)|, t.size)
    ensures InRange(v, t)
    ensures Data(Remaining(versions, v, t)) == Data(Upto(log, k, i, m, r.file, r.version)) + [r.data]
  {
    hide Full, Encode, RecBytes, Off, Remaining, Final, Upto, Pick, Scribbled, Data, Bears;
    var log' := Overwritten(log, i, m, r);
    assert 8000 + |log| + 1 < |v| && |v| == |c| by { ScribbledSize(c, v, log, 8000 + i, Off(log[i], m), RecBytes(r)); }
    OverwrittenOnCard(c, v, log, i, m, r);
    OffStart(log'[k]);
    ScanFinds(versions, v, t, log', k, 0, i, m + 1);
    AheadIsUpto(log', k, i, m + 1, r.file, r.version);
    UptoOverwritten(log, k, i, m, r);
  }

  lemma ScribbledSize(c: Blocks, v: Blocks, log: Log, b: nat, at: nat, w: seq<byte>)
    requires Bears(c, log) && Scribbled(c, v, b, at, w)
    ensures 8000 + |log| + 1 < |v| && |v| == |c|
  {
  }

  lemma UptoOverwritten(log: Log, k: nat, i: nat, m: nat, r: Rec)
    requires k <= i < |log| && m <= |log[i]|
    ensures Data(Upto(Overwritten(log, i, m, r), k, i, m + 1, r.file, r.version))
         == Data(Upto(log, k, i, m, r.file, r.version)) + [r.data]
  {
    hide Pick, Data, Off, One;
    var log', f, v := Overwritten(log, i, m, r), r.file, r.version;
    var rs' := log'[i];
    assert log'[i][..m] == log[i][..m];
    UptoSame(log, log', k, i, m, f, v);
    assert rs'[m] == r;
    UptoOneMore(log', k, i, m, f, v);
    DataAdds(Upto(log', k, i, m, f, v), One(rs', 8000 + i, m, f, v));
    DataOfOne(rs', 8000 + i, m, f, v);
  }

  lemma UptoOneMore(log: Log, k: nat, i: nat, m: nat, f: nat, v: u16)
    requires k <= i < |log| && m < |log[i]|
    ensures Upto(log, k, i, m + 1, f, v) == Upto(log, k, i, m, f, v) + One(log[i], 8000 + i, m, f, v)
  {
    hide One;
    if k < i {
      Reassociate(Upto(log, k, i - 1, |log[i - 1]|, f, v), Pick(log[i], 8000 + i, 0, m, f, v),
          One(log[i], 8000 + i, m, f, v));
    }
  }
}
