/** Dropping the front of a file, and recomputing its size by a bounded scan. */
module Trimming {
  import opened Bytes
  import opened Header
  import opened Entry
  import Fs
  import opened Cache
  import opened Layout
  import opened Scan
  import opened ScanLog
  import opened Journal
  import opened LiveVolume
  import opened FileSystem
  import opened Reader

  const SIZE_BUDGET := 10

  /** The hits reached by calls that give up after ten blocks without one. */
  ghost function Reach(hits: seq<Hit>, from: int): seq<Hit> {
    if |hits| == 0 || hits[0].block - from >= SIZE_BUDGET then []
    else [hits[0]] + Reach(hits[1..], hits[0].block)
  }

  /** No two neighbouring hits, nor the start and the first, are ten blocks apart. */
  ghost predicate Dense(hits: seq<Hit>, from: int) {
    && (|hits| > 0 ==> hits[0].block - from < 10)
    && forall i :: 0 < i < |hits| ==> hits[i].block - hits[i - 1].block < 10
  }

  /** The recomputed size counts every byte exactly when no gap reaches ten blocks. */
  lemma {:induction false} ReachIsExact(hits: seq<Hit>, from: int)
    requires forall i :: 0 <= i < |hits| ==> |hits[i].data| > 0
    ensures Reach(hits, from) == hits <==> Dense(hits, from)
    ensures ByteCount(Reach(hits, from)) == ByteCount(hits) <==> Dense(hits, from)
    ensures ByteCount(Reach(hits, from)) <= ByteCount(hits)
  {
    if |hits| > 0 {
      var rest := hits[1..];
      BytesFront(hits);
      if hits[0].block - from < SIZE_BUDGET {
        ReachIsExact(rest, hits[0].block);
        BytesFront(Reach(hits, from));
        assert Reach(hits, from)[1..] == Reach(rest, hits[0].block);
        assert hits == [hits[0]] + rest;
        DenseFront(hits, from);
      } else {
        assert !Dense(hits, from);
      }
    }
  }

  lemma DenseFront(hits: seq<Hit>, from: int)
    requires |hits| > 0 && hits[0].block - from < SIZE_BUDGET
    ensures Dense(hits, from) <==> Dense(hits[1..], hits[0].block)
  {
    var rest := hits[1..];
    if Dense(rest, hits[0].block) {
      forall i | 0 < i < |hits|
        ensures hits[i].block - hits[i - 1].block < SIZE_BUDGET
      {
        assert hits[i] == rest[i - 1];
      }
    }
    if Dense(hits, from) {
      forall i | 0 < i < |rest|
        ensures rest[i].block - rest[i - 1].block < SIZE_BUDGET
      {
        assert rest[i] == hits[i + 1] && rest[i - 1] == hits[i];
      }
    }
  }

  /** The number of payload bytes in some hits. */
  ghost function ByteCount(hits: seq<Hit>): nat {
    Total(Data(hits))
  }

  lemma {:induction false} TotalFront(p: Payloads)
    requires |p| > 0
    ensures Total(p) == |p[0]| + Total(p[1..])
  {
    if |p| > 1 {
      TotalFront(p[..|p| - 1]);
      assert p[..|p| - 1][1..] == p[1..][..|p| - 2];
    }
  }

  lemma BytesFront(hits: seq<Hit>)
    requires |hits| > 0
    ensures ByteCount(hits) == |hits[0].data| + ByteCount(hits[1..])
  {
    TotalFront(Data(hits));
    assert Data(hits)[1..] == Data(hits[1..]);
  }

  /** A token that starts at the file's start, as `calculate_file_size` makes it. */
  function SizingToken(h: Header, f: nat): Token
    requires f < 4
  {
    CreateToken(h, f).(size := 0)
  }

  function WithSize(h: Header, f: nat, size: u32): Header
    requires f < 4
  {
    h.(files := h.files[f := h.files[f].(size := size)])
  }

  /** The size field has no part in any scan. */
  lemma Resized(s: Fs.Fs, f: nat, size: u32, token: Token)
    requires Coherent(s) && f < 4 && InRange(s.card.blocks, token)
    ensures var t := s.(header := WithSize(s.header, f, size));
            Coherent(t) && Ring(s) && Ring(t) && Pending(t, token) == Pending(s, token)
  {
    assert Versions(WithSize(s.header, f, size)) == Versions(s.header);
  }

  /** The hits the sizing loop counts on a device that works: none from a
      token at block 0, which is never valid. */
  ghost function Counts(s: Fs.Fs, t: Token): seq<Hit>
    requires Ring(s) && InRange(s.card.blocks, t)
  {
    if t.block == 0 then [] else Reach(Pending(s, t), t.block)
  }

  /** Does the next turn of the loop count a hit, if the device lets it? */
  ghost predicate CountsOn(s: Fs.Fs, t: Token)
    requires Ring(s) && InRange(s.card.blocks, t)
  {
    t.block > 0 && Reaches(SIZE_BUDGET, t, Pending(s, t))
  }

  lemma CountsStep(s: Fs.Fs, t: Token)
    requires Ring(s) && InRange(s.card.blocks, t)
    ensures !CountsOn(s, t) ==> Counts(s, t) == []
    ensures CountsOn(s, t) ==>
              var hits := Pending(s, t);
              |hits| > 0 && Counts(s, t) == [hits[0]] + Reach(hits[1..], hits[0].block)
  {
    hide Pending;
  }

  /** The scan from `t` leaves unsynced bytes in the buffer alone. */
  ghost predicate Harmless(s: Fs.Fs, t: Token) {
    Done(t) || Settled(s, t)
  }

  /** What one turn of the loop does to the state. */
  ghost predicate Sized(s: Fs.Fs, u: Fs.Fs, f: nat, t: Token, t': Token, more: bool)
    requires Ring(s) && f < 4 && InRange(s.card.blocks, t)
  {
    && Coherent(u) && OnlyCache(s.(header := u.header), u) && (Working(s.card) ==> Working(u.card)) && SameSpan(t, t')
    && (more ==> CountsOn(s, t)) && (Working(s.card) && CountsOn(s, t) ==> more)
    && (Harmless(s, t) ==> u.dirty == s.dirty && (more ==> Harmless(u, t')))
    && (!more ==> u.header == s.header)
    && (more ==>
         && var hits := Pending(s, t);
         && u.header == WithSize(s.header, f, (s.header.files[f].size + |hits[0].data|) % 0x1_0000_0000)
         && 0 < t'.block == hits[0].block && Pending(u, t') == hits[1..])
  }

  /** One turn of the loop of `calculate_file_size`. */
  method SizeStep(fs: FileSystem, f: nat, iter: FileIter, clock: nat -> u32) returns (more: bool)
    requires fs.Valid() && Coherent(fs.State()) && Ring(fs.State()) && f < 4
    requires InRange(fs.sd.blocks, iter.token) && iter.token.lastBlock <= fs.header.block
    modifies fs, fs.buffer, iter
    ensures Sized(old(fs.State()), fs.State(), f, old(iter.token), iter.token, more)
    ensures iter.token.lastBlock == old(iter.token.lastBlock)
    ensures more ==> !Done(old(iter.token))
                     && Before(old(iter.token).block, old(iter.token).offset, iter.token.block, iter.token.offset)
  {
    hide Coherent, Seen, Pending, Resting, Remaining, Final;
    if Done(iter.token) { PendingDone(fs.State(), iter.token); }
    ghost var hits := Pending(fs.State(), iter.token);
    PendingBlocks(fs.State(), iter.token);
    more := Iterate(fs, Config(10, 0, false), iter, clock);
    CoherentRing(fs.State());
    if more {
      var size := (fs.header.files[f].size + iter.size) % 0x1_0000_0000;
      assert hits == hits[..1] + hits[1..];
      Resized(fs.State(), f, size, iter.token);
      fs.header := WithSize(fs.header, f, size);
    }
  }

  /** The state while the loop of `calculate_file_size` is in progress. */
  ghost predicate SizingState(s0: Fs.Fs, s: Fs.Fs, f: nat, t0: Token, t: Token, more: bool)
    requires f < 4
  {
    && Coherent(s) && (Working(s0.card) ==> Working(s.card)) && SameSpan(t0, t)
    && OnlyCache(s0.(header := s.header), s) && s.header == WithSize(s0.header, f, s.header.files[f].size)
    && (Harmless(s0, t0) ==> s.dirty == s0.dirty && (more ==> Harmless(s, t)))
  }

  /** The loop in progress: `taken` has been counted, and what the calls to come
      will count is what remains. A failed read ends the loop early. */
  ghost predicate Sizing(s0: Fs.Fs, s: Fs.Fs, f: nat, t0: Token, t: Token, taken: seq<Hit>, more: bool)
    requires Ring(s0) && f < 4 && InRange(s0.card.blocks, t0)
  {
    && SizingState(s0, s, f, t0, t, more)
    && (more ==> Counts(s0, t0) == taken + Counts(s, t))
    && (!more ==> taken <= Counts(s0, t0) && (Working(s0.card) ==> taken == Counts(s0, t0)))
    && s.header.files[f].size == ByteCount(taken) % 0x1_0000_0000
  }

  lemma SizingStateStep(s0: Fs.Fs, s: Fs.Fs, u: Fs.Fs, f: nat, t0: Token, t: Token, t': Token, more: bool)
    requires Ring(s) && f < 4 && InRange(s.card.blocks, t)
    requires SizingState(s0, s, f, t0, t, true) && Sized(s, u, f, t, t', more)
    ensures SizingState(s0, u, f, t0, t', more) && Ring(u) && InRange(u.card.blocks, t')
  {
    CoherentRing(u);
    hide Coherent, Pending, CountsOn, Harmless;
    ChainCache(s0, s, u);
  }

  lemma SizingStep(
    s0: Fs.Fs, s: Fs.Fs, u: Fs.Fs, f: nat, t0: Token, t: Token, t': Token, taken: seq<Hit>, more: bool)
    requires Ring(s0) && f < 4 && InRange(s0.card.blocks, t0) && Sizing(s0, s, f, t0, t, taken, true)
    requires Ring(s) && InRange(s.card.blocks, t) && Sized(s, u, f, t, t', more)
    ensures more ==> |Pending(s, t)| > 0
    ensures Sizing(s0, u, f, t0, t', if more then taken + [Pending(s, t)[0]] else taken, more)
  {
    SizingStateStep(s0, s, u, f, t0, t, t', more);
    assert Working(s0.card) ==> Working(s.card);
    SizedField(s, u, f, t, t', more);
    hide Sized, WithSize, Coherent, Pending, ByteCount, Counts, Harmless, CountsOn, Ring, SizingState;
    hide OnlyCache, InRange;
    CountsStep(s, t);
    if more {
      CountsNext(s, t, u, t');
      BytesAdded(taken, Pending(s, t)[0]);
      AddsUp(ByteCount(taken), |Pending(s, t)[0].data|);
      Reassociate(taken, [Pending(s, t)[0]], Counts(u, t'));
    }
  }

  lemma AddsUp(a: nat, b: nat)
    ensures (a % 0x1_0000_0000 + b) % 0x1_0000_0000 == (a + b) % 0x1_0000_0000
  {
  }

  lemma SizedField(s: Fs.Fs, u: Fs.Fs, f: nat, t: Token, t': Token, more: bool)
    requires Ring(s) && f < 4 && InRange(s.card.blocks, t) && Sized(s, u, f, t, t', more) && Ring(u)
             && InRange(u.card.blocks, t')
    ensures more ==>
              && CountsOn(s, t) && 0 < t'.block == Pending(s, t)[0].block && Pending(u, t') == Pending(s, t)[1..]
              && u.header.files[f].size == (s.header.files[f].size + |Pending(s, t)[0].data|) % 0x1_0000_0000
    ensures !more ==> u.header.files[f].size == s.header.files[f].size && (Working(s.card) ==> !CountsOn(s, t))
  {
    hide Coherent, Pending, OnlyCache, Harmless;
  }

  lemma CountsNext(s: Fs.Fs, t: Token, u: Fs.Fs, t': Token)
    requires Ring(s) && InRange(s.card.blocks, t) && CountsOn(s, t) && Ring(u) && InRange(u.card.blocks, t')
    requires 0 < t'.block == Pending(s, t)[0].block && Pending(u, t') == Pending(s, t)[1..]
    ensures Counts(s, t) == [Pending(s, t)[0]] + Counts(u, t')
  {
    hide Pending;
    CountsStep(s, t);
  }

  lemma SizingStarts(s: Fs.Fs, f: nat)
    requires Coherent(s) && f < 4 && s.header.files[f].endBlock <= s.header.block
    ensures var u, t := s.(header := WithSize(s.header, f, 0)), SizingToken(s.header, f);
            Ring(s) && Ring(u) && InRange(s.card.blocks, t) && t.lastBlock <= s.header.block
            && CreateToken(u.header, f) == t && Sizing(s, u, f, t, t, [], true)
  {
    hide Seen, Pending, Reach, ByteCount;
    NoBytes();
    var t := SizingToken(s.header, f);
    assert InRange(s.card.blocks, t);
    Resized(s, f, 0, t);
    assert [] + Counts(s, t) == Counts(s, t);
  }

  /** `calculate_file_size`: the size becomes that of the hits counted by calls
      with a budget of ten blocks each, up to the first failed read. Unsynced
      bytes are kept if the file lies in their block. */
  method CalculateFileSize(fs: FileSystem, f: nat, clock: nat -> u32) returns (ghost taken: seq<Hit>)
    requires fs.Valid() && Coherent(fs.State()) && f < 4 && fs.header.files[f].endBlock <= fs.header.block
    modifies fs, fs.buffer
    ensures Coherent(fs.State()) && OnlyCache(old(fs.State()).(header := fs.header), fs.State())
    ensures Harmless(old(fs.State()), SizingToken(old(fs.header), f)) ==>
            fs.cachedBlockDirty == old(fs.cachedBlockDirty)
    ensures fs.header == WithSize(old(fs.header), f, ByteCount(taken) % 0x1_0000_0000)
    ensures var s, t := old(fs.State()), SizingToken(old(fs.header), f);
            && Ring(s) && InRange(s.card.blocks, t) && taken <= Counts(s, t)
            && (Working(s.card) ==> taken == Counts(s, t) && Working(fs.sd))
  {
    ghost var s0, t0 := fs.State(), SizingToken(fs.header, f);
    SizingStarts(s0, f);
    hide Coherent, Pending, ByteCount, OnlyCache, Sized, Sizing, Counts, Ring, InRange, Working, Harmless;
    fs.header := WithSize(fs.header, f, 0);
    var iter := new FileIter(CreateToken(fs.header, f));
    taken := [];
    var more := true;
    while more
      invariant fs.Valid() && Ring(fs.State()) && Sizing(s0, fs.State(), f, t0, iter.token, taken, more)
      decreases more, if iter.token.block <= iter.token.lastBlock then iter.token.lastBlock + 1 - iter.token.block
                else 0,
                0x1_0000 - iter.token.offset
    {
      ghost var s1, t1 := fs.State(), iter.token;
      SizingReady(s0, s1, f, t0, t1, taken);
      more := SizeStep(fs, f, iter, clock);
      SizingStep(s0, s1, fs.State(), f, t0, t1, iter.token, taken, more);
      SizingRing(s0, fs.State(), f, t0, iter.token, if more then taken + [Pending(s1, t1)[0]] else taken, more);
      if more {
        taken := taken + [Pending(s1, t1)[0]];
      }
    }
    SizingEnds(s0, fs.State(), f, t0, iter.token, taken);
  }

  lemma SizingRing(s0: Fs.Fs, s: Fs.Fs, f: nat, t0: Token, t: Token, taken: seq<Hit>, more: bool)
    requires Ring(s0) && f < 4 && InRange(s0.card.blocks, t0) && Sizing(s0, s, f, t0, t, taken, more)
    ensures Ring(s)
  {
  }

  lemma SizingReady(s0: Fs.Fs, s: Fs.Fs, f: nat, t0: Token, t: Token, taken: seq<Hit>)
    requires Ring(s0) && f < 4 && InRange(s0.card.blocks, t0) && t0.lastBlock <= s0.header.block
    requires Sizing(s0, s, f, t0, t, taken, true)
    ensures Coherent(s) && Ring(s) && InRange(s.card.blocks, t) && t.lastBlock <= s.header.block
  {
    hide Pending, Reach, ByteCount, Counts;
  }

  lemma SizingEnds(s0: Fs.Fs, s: Fs.Fs, f: nat, t0: Token, t: Token, taken: seq<Hit>)
    requires Ring(s0) && f < 4 && InRange(s0.card.blocks, t0) && Sizing(s0, s, f, t0, t, taken, false)
    ensures Coherent(s) && OnlyCache(s0.(header := s.header), s) && (Harmless(s0, t0) ==> s.dirty == s0.dirty)
    ensures s.header == WithSize(s0.header, f, ByteCount(taken) % 0x1_0000_0000)
    ensures taken <= Counts(s0, t0) && (Working(s0.card) ==> taken == Counts(s0, t0) && Working(s.card))
  {
    hide Coherent, Pending, Reach, ByteCount, Counts;
  }

  lemma ChainCache(s: Fs.Fs, t: Fs.Fs, u: Fs.Fs)
    requires OnlyCache(s.(header := t.header), t) && OnlyCache(t.(header := u.header), u)
    ensures OnlyCache(s.(header := u.header), u)
  {
  }

  lemma NoBytes()
    ensures ByteCount([]) == 0
  {
  }

  lemma BytesAdded(hits: seq<Hit>, h: Hit)
    ensures ByteCount(hits + [h]) == ByteCount(hits) + |h.data|
  {
    assert Data(hits + [h]) == Data(hits) + [h.data];
    TotalAdded(Data(hits), h.data);
  }

  // ----- dropping the front -----

  lemma {:induction false} PickBlock(rs: seq<Rec>, b: nat, lo: nat, hi: nat, f: nat, v: u16)
    requires lo <= hi <= |rs|
    ensures forall h :: h in Pick(rs, b, lo, hi, f, v) ==> h.block == b
  {
    if lo < hi { PickBlock(rs, b, lo, hi - 1, f, v); }
  }

  lemma {:induction false} UptoBlocks(log: Log, i: nat, e: nat, m: nat, f: nat, v: u16)
    requires i <= e < |log| && m <= |log[e]|
    ensures forall h :: h in Upto(log, i, e, m, f, v) ==> 8000 + i <= h.block <= 8000 + e
    decreases e
  {
    hide Pick;
    PickBlock(log[e], 8000 + e, 0, m, f, v);
    if i < e { UptoBlocks(log, i, e - 1, |log[e - 1]|, f, v); }
  }

  /** The start of file `f` may be moved forward to block `first`. */
  ghost predicate Trimmable(file: FileHeader, j: Journal, f: nat, first: u32)
    requires f < 4
  {
    Bounded(file, j, f) && file.startBlock <= first <= file.endBlock
  }

  /** The file's hits from block `first` on, and those before it. */
  ghost function KeptHits(file: FileHeader, j: Journal, f: nat, first: u32): seq<Hit>
    requires f < 4 && Trimmable(file, j, f, first)
  {
    HitsFrom(file, j, f, first - 8000)
  }

  ghost function DroppedHits(file: FileHeader, j: Journal, f: nat, first: u32): seq<Hit>
    requires f < 4 && 8000 <= file.startBlock <= first < 8000 + |j.log|
  {
    if first == file.startBlock then []
    else Upto(j.log, file.startBlock - 8000, first - 8001, |j.log[first - 8001]|, f, file.version)
  }

  /** The file's header once trimmed, and the journal it describes. */
  ghost function TrimmedFile(file: FileHeader, j: Journal, f: nat, first: u32): FileHeader
    requires f < 4 && Trimmable(file, j, f, first)
  {
    file.(startBlock := first, size := Total(Data(KeptHits(file, j, f, first))) % 0x1_0000_0000)
  }

  /** The whole header after `fkfs_file_truncate_at`. */
  ghost function TrimmedHeader(h: Header, j: Journal, f: nat, first: u32): Header
    requires f < 4 && Trimmable(h.files[f], j, f, first)
  {
    var kept := KeptHits(h.files[f], j, f, first);
    h.(files := h.files[
      f := h.files[f].(startBlock := first, size := ByteCount(Reach(kept, first)) % 0x1_0000_0000)])
  }

  ghost function Trimmed(file: FileHeader, j: Journal, f: nat, first: u32): Journal
    requires f < 4 && Trimmable(file, j, f, first)
  {
    j.(contents := j.contents[f := Data(KeptHits(file, j, f, first))])
  }

  /** Moving a file's start forward keeps exactly the payloads in later blocks,
      a suffix of what it held. */
  lemma TrimKeepsSuffix(file: FileHeader, j: Journal, f: nat, first: u32)
    requires f < 4 && Describes(file, j, f) && Trimmable(file, j, f, first)
    ensures j.contents[f] == Data(DroppedHits(file, j, f, first)) + Data(KeptHits(file, j, f, first))
    ensures forall h :: h in DroppedHits(file, j, f, first) ==> h.block < first
    ensures forall h :: h in KeptHits(file, j, f, first) ==> first <= h.block
  {
    hide Describes, Whole, Total, Off, Data, Upto;
    DescribedContents(file, j, f);
    var i, k, e, m, v := file.startBlock - 8000, first - 8000, file.endBlock - 8000, j.ends[f], file.version;
    UptoBlocks(j.log, k, e, m, f, v);
    NoData();
    if i < k {
      UptoSplits(j.log, i, k, e, m, f, v);
      DataAdds(DroppedHits(file, j, f, first), KeptHits(file, j, f, first));
      UptoBlocks(j.log, i, k - 1, |j.log[k - 1]|, f, v);
    }
  }

  lemma Cancels(p: seq<Hit>, a: seq<Hit>, b: seq<Hit>)
    requires p + a == p + b
    ensures a == b
  {
    assert a == (p + a)[|p|..] && b == (p + b)[|p|..];
  }

  lemma TrimDescribes(file: FileHeader, j: Journal, f: nat, first: u32)
    requires f < 4 && Describes(file, j, f) && Trimmable(file, j, f, first)
    ensures Describes(TrimmedFile(file, j, f, first), Trimmed(file, j, f, first), f)
  {
    hide Upto, Off, Encode, Lag, Data;
    var i, k, e, m, v := file.startBlock - 8000, first - 8000, file.endBlock - 8000, j.ends[f], file.version;
    var top := Top(j.log);
    if i < k {
      UptoSplits(j.log, i, k, e, m, f, v);
      UptoSplits(j.log, i, k, top, |j.log[top]|, f, v);
      Cancels(Upto(j.log, i, k - 1, |j.log[k - 1]|, f, v), Whole(j.log, k, f, v), Upto(j.log, k, e, m, f, v));
    }
    assert Whole(j.log, k, f, v) == Upto(j.log, k, e, m, f, v);
  }

  lemma TrimTracks(h: Header, j: Journal, f: nat, first: u32, h': Header)
    requires f < 4 && Tracks(h, j) && Trimmable(h.files[f], j, f, first)
    requires h'.block == h.block && h'.offset == h.offset
    requires h'.files == h.files[f := TrimmedFile(h.files[f], j, f, first)]
    ensures Tracks(h', Trimmed(h.files[f], j, f, first))
  {
    hide TrimmedFile, KeptHits, Encode, Upto, Off, Lag, Trimmable;
    assert Describes(h.files[f], j, f);
    TrimDescribes(h.files[f], j, f, first);
    forall g | 0 <= g < 4
      ensures Describes(h'.files[g], Trimmed(h.files[f], j, f, first), g)
    {
      if g != f { assert Describes(h.files[g], j, g); }
    }
  }

  function StartAt(h: Header, f: nat, first: u32): Header
    requires f < 4
  {
    h.(files := h.files[f := h.files[f].(startBlock := first)])
  }

  /** The token of the sizing scan once the start has moved. */
  function TrimToken(h: Header, f: nat, first: u32): Token
    requires f < 4
  {
    SizingToken(StartAt(h, f, first), f)
  }

  /** What the trimmed file's sizing scan has to return. */
  lemma TrimmedPending(s: Fs.Fs, j: Journal, f: nat, first: u32)
    requires Live(s, j) && f < 4 && Trimmable(s.header.files[f], j, f, first)
    requires !s.dirty || first == s.header.block
    ensures var t, kept := TrimToken(s.header, f, first), KeptHits(s.header.files[f], j, f, first);
            && Ring(s) && InRange(s.card.blocks, t) && Pending(s, t) == kept && Counts(s, t) == Reach(kept, first)
  {
    hide Live, Describes, Carried, Remaining, Final, Off, Upto, Reach, Encode;
    var file, t := s.header.files[f], TrimToken(s.header, f, first);
    LiveIsCoherent(s, j);
    LiveCarried(s, j);
    SettledSees(s, t);
    ScanDescribed(Versions(s.header), ViewBlocks(s), file, j, f, first - 8000, t);
  }

  lemma {:induction false} PickNotEmpty(rs: seq<Rec>, b: nat, lo: nat, hi: nat, f: nat, v: u16)
    requires lo <= hi <= |rs|
    ensures forall h :: h in Pick(rs, b, lo, hi, f, v) ==> |h.data| > 0
  {
    if lo < hi { PickNotEmpty(rs, b, lo, hi - 1, f, v); }
  }

  lemma {:induction false} UptoNotEmpty(log: Log, i: nat, e: nat, m: nat, f: nat, v: u16)
    requires i <= e < |log| && m <= |log[e]|
    ensures forall h :: h in Upto(log, i, e, m, f, v) ==> |h.data| > 0
    decreases e
  {
    hide Pick;
    PickNotEmpty(log[e], 8000 + e, 0, m, f, v);
    if i < e { UptoNotEmpty(log, i, e - 1, |log[e - 1]|, f, v); }
  }

  /** What is kept lies in the blocks from `first` to the file's end, no payload empty. */
  lemma KeptFacts(file: FileHeader, j: Journal, f: nat, first: u32)
    requires f < 4 && Trimmable(file, j, f, first)
    ensures var kept := KeptHits(file, j, f, first);
            forall i :: 0 <= i < |kept| ==> |kept[i].data| > 0 && first <= kept[i].block <= file.endBlock
  {
    hide Upto, Off;
    var kept := KeptHits(file, j, f, first);
    UptoNotEmpty(j.log, first - 8000, file.endBlock - 8000, j.ends[f], f, file.version);
    UptoBlocks(j.log, first - 8000, file.endBlock - 8000, j.ends[f], f, file.version);
    assert forall i :: 0 <= i < |kept| ==> kept[i] in kept;
  }

  lemma TrimStart(s: Fs.Fs, t: Fs.Fs, f: nat, first: u32)
    requires Coherent(s) && f < 4 && t == s.(header := StartAt(s.header, f, first))
    requires InRange(s.card.blocks, TrimToken(s.header, f, first))
    ensures Coherent(t) && SizingToken(t.header, f) == TrimToken(s.header, f, first)
    ensures Counts(t, SizingToken(t.header, f)) == Counts(s, TrimToken(s.header, f, first))
  {
    assert Versions(t.header) == Versions(s.header);
  }

  /** `t` is `s` with the start of file `f` moved to block `first`, whatever its
      size field says. */
  ghost predicate StartMoved(s: Fs.Fs, t: Fs.Fs, f: nat, first: u32)
    requires f < 4
  {
    && Coherent(t) && OnlyCache(s.(header := t.header), t)
    && t.header == WithSize(StartAt(s.header, f, first), f, t.header.files[f].size)
  }

  lemma MovedView(s: Fs.Fs, t: Fs.Fs, f: nat, first: u32)
    requires f < 4 && Coherent(s) && StartMoved(s, t, f, first) && t.dirty == s.dirty
    ensures Ring(s) && Ring(t) && ViewBlocks(t) == ViewBlocks(s) && Versions(t.header) == Versions(s.header)
    ensures forall g :: 0 <= g < 4 && g != f ==> CreateToken(t.header, g) == CreateToken(s.header, g)
    ensures var u := CreateToken(t.header, f);
            u == TrimToken(s.header, f, first).(size := u.size)
    ensures forall b :: 0 <= b < |s.card.blocks| ==> View(t, b) == View(s, b)
  {
  }

  lemma TrimReadsOwn(s: Fs.Fs, j: Journal, f: nat, first: u32, t: Fs.Fs)
    requires Live(s, j) && f < 4 && Trimmable(s.header.files[f], j, f, first)
    requires StartMoved(s, t, f, first) && t.dirty == s.dirty
    ensures Reads(t, f, Data(KeptHits(s.header.files[f], j, f, first)))
  {
    hide Live, Carried, Remaining, Final, Off, Upto, StartMoved, ViewBlocks, Data, Versions, WithSize;
    hide StartAt, Coherent;
    LiveIsCoherent(s, j);
    MovedView(s, t, f, first);
    LiveCarried(s, j);
    TrimStartAt(s.header, f, first);
    ScanDescribed(Versions(s.header), ViewBlocks(s), s.header.files[f], j, f, first - 8000, CreateToken(t.header, f));
  }

  lemma TrimStartAt(h: Header, f: nat, first: u32)
    requires f < 4
    ensures var t, file := TrimToken(h, f, first), h.files[f];
            t == Token(f, first, file.startOffset, file.endBlock, file.endOffset, 0)
    ensures Versions(h)[f] == h.files[f].version
  {
  }

  lemma TrimReadsOther(s: Fs.Fs, j: Journal, f: nat, first: u32, t: Fs.Fs, g: nat)
    requires Live(s, j) && f < 4 && StartMoved(s, t, f, first) && t.dirty == s.dirty && g < 4 && g != f
    ensures Reads(t, g, j.contents[g])
  {
    hide Live, Remaining, Final, StartMoved, ViewBlocks, Data, Coherent;
    LiveIsCoherent(s, j);
    MovedView(s, t, f, first);
    LiveReads(s, j, g);
  }

  /** What is readable once the start has moved does not depend on the size:
      the file reads as its payloads in blocks from `first` on, however many
      blocks they span, and the other files read as before. */
  lemma TrimReads(s: Fs.Fs, j: Journal, f: nat, first: u32, t: Fs.Fs)
    requires Live(s, j) && f < 4 && Trimmable(s.header.files[f], j, f, first)
    requires StartMoved(s, t, f, first) && t.dirty == s.dirty
    ensures forall g :: 0 <= g < 4 ==> Reads(t, g, Trimmed(s.header.files[f], j, f, first).contents[g])
  {
    hide Live, StartMoved, Reads, KeptHits, Trimmable, Data;
    TrimReadsOwn(s, j, f, first, t);
    forall g | 0 <= g < 4 && g != f
      ensures Reads(t, g, j.contents[g])
    {
      TrimReadsOther(s, j, f, first, t, g);
    }
  }

  lemma TrimEnd(h: Header, j: Journal, f: nat, first: u32, h': Header)
    requires f < 4 && Trimmable(h.files[f], j, f, first)
    requires h' == WithSize(StartAt(h, f, first), f, h'.files[f].size)
    requires h'.files[f].size == ByteCount(Reach(KeptHits(h.files[f], j, f, first), first)) % 0x1_0000_0000
    ensures h' == TrimmedHeader(h, j, f, first)
  {
    hide KeptHits, ByteCount, Reach;
  }

  lemma LiveTrimmed(s: Fs.Fs, j: Journal, f: nat, first: u32, t: Fs.Fs)
    requires Live(s, j) && f < 4 && Trimmable(s.header.files[f], j, f, first)
    requires StartMoved(s, t, f, first) && t.dirty == s.dirty
    ensures Live(t, Trimmed(s.header.files[f], j, f, first))
       <==> t.header.files[f].size == Total(Data(KeptHits(s.header.files[f], j, f, first))) % 0x1_0000_0000
  {
    var k := Trimmed(s.header.files[f], j, f, first);
    if Live(t, k) {
      LiveDescribes(t, k, f);
      DescribedSize(t.header.files[f], k, f);
    }
    if t.header.files[f].size == Total(Data(KeptHits(s.header.files[f], j, f, first))) % 0x1_0000_0000 {
      ExactIsLive(s, j, f, first, t);
    }
  }

  lemma ExactIsLive(s: Fs.Fs, j: Journal, f: nat, first: u32, t: Fs.Fs)
    requires Live(s, j) && f < 4 && Trimmable(s.header.files[f], j, f, first)
    requires StartMoved(s, t, f, first) && t.dirty == s.dirty
    requires t.header.files[f].size == Total(Data(KeptHits(s.header.files[f], j, f, first))) % 0x1_0000_0000
    ensures Live(t, Trimmed(s.header.files[f], j, f, first))
  {
    MovedFiles(s, t, f, first);
    LiveIsCoherent(s, j);
    MovedView(s, t, f, first);
    hide Full, Tracks, Trimmable, KeptHits, Coherent, View, ViewBlocks, Data, Total;
    TrimTracks(s.header, j, f, first, t.header);
  }

  lemma MovedFiles(s: Fs.Fs, t: Fs.Fs, f: nat, first: u32)
    requires f < 4 && StartMoved(s, t, f, first)
    ensures |t.card.blocks| == |s.card.blocks| && Coherent(t)
    ensures t.header.block == s.header.block && t.header.offset == s.header.offset
    ensures t.header.files
            == s.header.files[f := s.header.files[f].(startBlock := first, size := t.header.files[f].size)]
  {
    hide Coherent;
  }

  lemma DescribedSize(file: FileHeader, j: Journal, f: nat)
    requires f < 4 && Describes(file, j, f)
    ensures file.size == Total(j.contents[f]) % 0x1_0000_0000
  {
  }

  /** `fkfs_file_truncate_at`: the file's start moves to the token's last block,
      and its size is recomputed by the bounded scan, which a failed read ends
      early. On a live volume the file then reads as exactly its payloads in
      blocks from there on, and on a working device the count is complete if and
      only if no gap between them reaches ten blocks. */
  method TruncateAt(fs: FileSystem, token: Token, ghost j: Journal, clock: nat -> u32) returns (ghost taken: seq<Hit>)
    requires fs.Valid() && Coherent(fs.State()) && token.file < 4
    requires fs.header.files[token.file].endBlock <= fs.header.block
    modifies fs, fs.buffer
    ensures fs.header.files[token.file].size == ByteCount(taken) % 0x1_0000_0000
    ensures StartMoved(old(fs.State()), fs.State(), token.file, token.lastBlock)
    ensures var s, t := old(fs.State()), TrimToken(old(fs.header), token.file, token.lastBlock);
            && Ring(s) && InRange(s.card.blocks, t)
            && taken <= Counts(s, t) && (Working(s.card) ==> taken == Counts(s, t))
            && (Harmless(s, t) ==> fs.cachedBlockDirty == s.dirty)
    ensures var file, first := old(fs.header.files[token.file]), token.lastBlock;
            old(Live(fs.State(), j) && (fs.cachedBlockDirty ==> first == fs.header.block))
            && Trimmable(file, j, token.file, first) ==>
              && (forall g :: 0 <= g < 4 ==> Reads(fs.State(), g, Trimmed(file, j, token.file, first).contents[g]))
              && var kept := KeptHits(file, j, token.file, first);
              Working(old(fs.sd)) ==>
                && fs.header == TrimmedHeader(old(fs.header), j, token.file, first)
                && (ByteCount(taken) == Total(Data(kept)) <==> Dense(kept, first))
  {
    ghost var s0 := fs.State();
    hide Live, Coherent, Pending, Seen, ViewBlocks, KeptHits, Remaining, Final, Reach, Counts, Reads, Trimmed;
    hide Dense, OnlyCache, TrimmedHeader;
    var f := token.file;
    assert Ring(s0) by { CoherentRing(s0); }
    TrimStart(s0, s0.(header := StartAt(s0.header, f, token.lastBlock)), f, token.lastBlock);
    fs.header := StartAt(fs.header, f, token.lastBlock);
    taken := CalculateFileSize(fs, f, clock);
    if Live(s0, j) && (s0.dirty ==> token.lastBlock == s0.header.block)
       && Trimmable(s0.header.files[f], j, f, token.lastBlock) {
      TrimReads(s0, j, f, token.lastBlock, fs.State());
      TrimmedPending(s0, j, f, token.lastBlock);
      KeptFacts(s0.header.files[f], j, f, token.lastBlock);
      ReachIsExact(KeptHits(s0.header.files[f], j, f, token.lastBlock), token.lastBlock);
      if Working(s0.card) { TrimEnd(s0.header, j, f, token.lastBlock, fs.header); }
    }
  }

  /** The trimmed volume after `fkfs_file_truncate_at` on a working device. All
      its files read back, whatever the span. The counted bytes are those kept if
      and only if no gap reaches ten blocks; then the volume is live again, and
      below 2^32 bytes only then. */
  lemma TrimmedVolume(s: Fs.Fs, j: Journal, f: nat, first: u32, t: Fs.Fs)
    requires Live(s, j) && f < 4 && Trimmable(s.header.files[f], j, f, first)
    requires StartMoved(s, t, f, first) && t.dirty == s.dirty
    requires t.header == TrimmedHeader(s.header, j, f, first)
    ensures var k, kept := Trimmed(s.header.files[f], j, f, first), KeptHits(s.header.files[f], j, f, first);
            && (forall g :: 0 <= g < 4 ==> Reads(t, g, k.contents[g]))
            && (ByteCount(Reach(kept, first)) == Total(Data(kept)) <==> Dense(kept, first))
            && (Dense(kept, first) ==> Live(t, k))
            && (Total(Data(kept)) < 0x1_0000_0000 ==> (Live(t, k) <==> Dense(kept, first)))
  {
    hide Live, Coherent, Trimmable, KeptHits, Reach, Pending, Resting, Remaining, Final, Reads, Dense;
    hide StartMoved, Trimmed;
    TrimReads(s, j, f, first, t);
    KeptFacts(s.header.files[f], j, f, first);
    ReachIsExact(KeptHits(s.header.files[f], j, f, first), first);
    LiveTrimmed(s, j, f, first, t);
  }

  /** If the kept part spans fewer than ten blocks, no gap reaches ten, and the
      trimmed volume is live again. */
  lemma ShortTrimIsLive(s: Fs.Fs, j: Journal, f: nat, first: u32, t: Fs.Fs)
    requires Live(s, j) && f < 4 && Trimmable(s.header.files[f], j, f, first)
    requires StartMoved(s, t, f, first) && t.dirty == s.dirty
    requires t.header == TrimmedHeader(s.header, j, f, first) && s.header.files[f].endBlock - first < SIZE_BUDGET
    ensures Dense(KeptHits(s.header.files[f], j, f, first), first) && Live(t, Trimmed(s.header.files[f], j, f, first))
  {
    hide Live, Coherent, Trimmable, KeptHits, Reach, StartMoved, Trimmed;
    KeptFacts(s.header.files[f], j, f, first);
    TrimmedVolume(s, j, f, first, t);
  }
}
