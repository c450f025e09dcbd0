/** Running on after a crash between the two writes of a sync: the data is on
    the card, the header does not count it. The next append steps over such
    records, and its file then reads them again. */
module Uncounted {
  import opened Bytes
  import opened Header
  import opened Entry
  import opened Search
  import opened Card
  import opened Fs
  import opened Cache
  import opened HeaderProtocol
  import opened Layout
  import opened Scan
  import opened ScanLog
  import opened Journal
  import opened LiveVolume
  import opened Incremental
  import opened Unsynced
  import opened Landing

  // ----- the search, record by record -----

  /** Does a search by a file of priority `p` step over `r`? */
  predicate Skips(versions: seq<u16>, prios: seq<u8>, r: Rec, p: u8, required: nat)
    requires |versions| == 4 && |prios| == 4
  {
    r.version == versions[r.file] && !(prios[r.file] > p && |r.data| >= required)
  }

  datatype Spot = At(index: nat) | Nowhere

  /** The record at which a search from record `k` on stops: the first it does not step over, or the end. */
  function StopIn(versions: seq<u16>, prios: seq<u8>, rs: seq<Rec>, p: u8, required: nat, k: nat): (s: Spot)
    requires |versions| == 4 && |prios| == 4 && k <= |rs|
    ensures s.At? ==> k <= s.index <= |rs| && forall q :: k <= q < s.index ==>
            Skips(versions, prios, rs[q], p, required)
    decreases |rs| - k
  {
    if k == |rs| || !Skips(versions, prios, rs[k], p, required) then At(k)
    else if Off(rs, k + 1) + required < 512 then StopIn(versions, prios, rs, p, required, k + 1)
    else Nowhere
  }

  /** One record of a full block, as the search meets it. */
  lemma MeetsRecord(versions: seq<u16>, prios: seq<u8>, b: Block, rs: seq<Rec>, p: u8, required: nat, k: nat)
    requires |versions| == 4 && |prios| == 4 && Full(b, rs) && k < |rs|
    ensures Off(rs, k) + ENTRY_SIZE <= 512 && EntryAt(b, Off(rs, k)).file < 4
    ensures Check(versions, b, Off(rs, k)).Good? <==> rs[k].version == versions[rs[k].file]
    ensures Yields(prios, b, Off(rs, k), p, required) <==> prios[rs[k].file] > p && |rs[k].data| >= required
    ensures Off(rs, k) + Occupied(b, Off(rs, k)) == Off(rs, k + 1)
  {
    hide Check, Encode, Off, EntryBytes;
    HoldsPrefix(b, rs, k + 1);
    HeldRecord(b, rs, k);
    TruncationIsExact(versions, b, Off(rs, k), rs[k]);
  }

  /** On a full block the search does what `StopIn` says. */
  lemma {:induction false} SearchStops(
    versions: seq<u16>, prios: seq<u8>, b: Block, rs: seq<Rec>, p: u8, required: nat, k: nat)
    requires |versions| == 4 && |prios| == 4 && Full(b, rs) && k <= |rs| && required >= 8
             && Off(rs, k) + required <= 512
    ensures var r, s := SearchFrom(versions, prios, b, p, required, Off(rs, k)),
            StopIn(versions, prios, rs, p, required, k);
            if s.At? then !r.status.Eob? && r.offset == Off(rs, s.index) else r.status.Eob?
    decreases |rs| - k
  {
    hide Check, Encode, Off, Full, Yields, EntryAt;
    if k == |rs| {
      EndsBlock(versions, b, rs);
    } else {
      MeetsRecord(versions, prios, b, rs, p, required, k);
      if Skips(versions, prios, rs[k], p, required) && Off(rs, k + 1) + required < 512 {
        SearchStops(versions, prios, b, rs, p, required, k + 1);
      }
    }
  }

  lemma EndsBlock(versions: seq<u16>, b: Block, rs: seq<Rec>)
    requires |versions| == 4 && Full(b, rs)
    ensures Check(versions, b, Off(rs, |rs|)) == Size
  {
    hide Check, Encode;
    OffEnd(rs);
    ZeroEndsChain(versions, b, |Encode(rs)|);
  }

  // ----- the next append -----

  /** The log `all` has two more blocks than `d`, and goes on behind what `d` has. */
  ghost predicate Surpasses(all: Log, d: Journal) {
    && |all| == |d.log| + 2 && Grows(d.log, all)
    && (all[|d.log|] == [] || all[|d.log| + 1] == [])
  }

  /** A clean filesystem whose header describes `d` while its card bears `all`. */
  ghost predicate Overfull(u: Fs, d: Journal, all: Log) {
    Idle(u) && Tracks(u.header, d) && Bears(u.card.blocks, all) && Surpasses(all, d)
  }

  /** The block and the record the search stops at, from record `n` of block
      `top` on: there, in the next block, or at the start of the one after. */
  function PlaceIn(versions: seq<u16>, prios: seq<u8>, p: u8, required: nat, all: Log, top: nat,
      n: nat): (at: (nat, nat))
    requires |versions| == 4 && |prios| == 4 && top + 2 < |all| && n <= |all[top]|
    ensures top <= at.0 <= top + 2 && at.1 <= |all[at.0]| && (at.0 == top ==> n <= at.1)
  {
    var first := if Off(all[top], n) + required <= 512 then StopIn(versions, prios, all[top], p, required, n)
        else Nowhere;
    if first.At? then (top, first.index)
    else
      var second := StopIn(versions, prios, all[top + 1], p, required, 0);
      if second.At? then (top + 1, second.index) else (top + 2, 0)
  }

  /** Where an entry of file `f` will go: the block's index and the record it is written at. */
  ghost function PlaceOf(u: Fs, d: Journal, all: Log, f: nat, required: nat): (at: (nat, nat))
    requires f < 4 && |all| == |d.log| + 2 && |Last(d.log)| <= |all[Top(d.log)]|
    ensures Top(d.log) <= at.0 < |all| && at.1 <= |all[at.0]| && (at.0 == Top(d.log) ==> |Last(d.log)| <= at.1)
  {
    hide PlaceIn;
    PlaceIn(Versions(u.header), Priorities(u), u.settings[f].priority, required, all, Top(d.log), |Last(d.log)|)
  }

  lemma SurpassesBasics(all: Log, d: Journal)
    requires Surpasses(all, d)
    ensures |all| == |d.log| + 2 && |Last(d.log)| <= |all[Top(d.log)]|
            && all[Top(d.log)][..|Last(d.log)|] == Last(d.log)
    ensures Grows(d.log, all)
    ensures Off(all[Top(d.log)], |Last(d.log)|) == |Encode(Last(d.log))|
    ensures all[|d.log|] == [] || all[|d.log| + 1] == []
  {
  }

  lemma SoughtStops(u: Fs, f: nat, required: nat, b: Block, rs: seq<Rec>, k: nat)
    requires f < 4 && required >= 8 && Full(b, rs) && k <= |rs| && Off(rs, k) + required <= 512
    ensures var r := Sought(u, f, required, b, Off(rs, k));
            var s := StopIn(Versions(u.header), Priorities(u), rs, u.settings[f].priority, required, k);
            if s.At? then !r.status.Eob? && r.offset == Off(rs, s.index) <= 512 else r.status.Eob?
  {
    hide Full, Off, SearchFrom, StopIn;
    SearchStops(Versions(u.header), Priorities(u), b, rs, u.settings[f].priority, required, k);
  }

  lemma OverfullBasics(u: Fs, d: Journal, all: Log)
    requires Overfull(u, d, all)
    ensures Idle(u) && Ring(u) && u.header.block == 8000 + Top(d.log) && u.header.offset == |Encode(Last(d.log))| <= 512
    ensures 8000 + |all| + 1 < |u.card.blocks| && Bears(u.card.blocks, all) && Surpasses(all, d) && Tracks(u.header, d)
  {
    hide Full, Describes, Encode, Surpasses;
    SurpassesBasics(all, d);
  }

  lemma BearsBlock(blocks: Blocks, all: Log, i: nat)
    requires Bears(blocks, all) && i < |all|
    ensures Full(blocks[8000 + i], all[i])
  {
    hide Full;
  }

  /** `w` is `u`, perhaps with other blocks loaded and another place in its header. */
  ghost predicate Near(u: Fs, w: Fs, block: u32) {
    && Idle(w) && w.card.blocks == u.card.blocks && w.settings == u.settings
    && w.header == u.header.(block := block, offset := w.header.offset)
  }

  lemma PlacedIsNear(u: Fs, w: Fs, a: Fs, from: u32, block: u32, offset: u16)
    requires Near(u, w, from) && Placed(w, a, block, offset)
    ensures Near(u, a, block) && Placed(u, a, block, offset)
  {
    hide Idle;
  }

  lemma NearSeeks(u: Fs, w: Fs, from: u32, f: nat, required: nat, b: Block, offset: nat)
    requires Near(u, w, from) && f < 4 && required >= 8 && offset + required <= 512
    ensures Sought(w, f, required, b, offset) == Sought(u, f, required, b, offset)
  {
    hide SearchFrom, Idle;
  }

  /** One move of the allocator, to the block of index `i`. */
  lemma MovesTo(u: Fs, w: Fs, rs: seq<Rec>, i: nat, f: nat, required: nat, offset: nat, visited: nat) returns (a: Fs)
    requires 0 < i && 8000 + i + 2 < |u.card.blocks| && Near(u, w, 8000 + i - 1)
    requires Full(u.card.blocks[8000 + i], rs) && f < 4 && 8 <= required <= 512 && offset + required > 512
             && visited < 4
    ensures var s := StopIn(Versions(u.header), Priorities(u), rs, u.settings[f].priority, required, 0);
            && (s.At? ==> Off(rs, s.index) <= 512 && Placed(u, a, 8000 + i, Off(rs, s.index)))
            && (s.Nowhere? ==> Near(u, a, 8000 + i))
            && AllocateFrom(w, f, required, offset, visited)
               == if s.At? then Outcome(a, true) else AllocateFrom(a, f, required, 512, visited + 1)
  {
    NearRoomy(u, w, 8000 + i - 1);
    hide Idle, Full, Off, StopIn, AllocateFrom, Sought, Roomy;
    OffStart(rs);
    SoughtStops(u, f, required, u.card.blocks[8000 + i], rs, 0);
    NearSeeks(u, w, 8000 + i - 1, f, required, u.card.blocks[8000 + i], 0);
    a := AllocatesNext(w, f, required, offset, visited);
    PlacedIsNear(u, w, a, 8000 + i - 1, 8000 + i, a.header.offset);
  }

  lemma NearRoomy(u: Fs, w: Fs, block: u32)
    requires Near(u, w, block) && block + 3 < |u.card.blocks|
    ensures Idle(w) && Roomy(w) && w.header.block == block && |w.card.blocks| == |u.card.blocks|
  {
  }

  /** The allocator has no place in the block of the header and moves on. */
  lemma FindsNext(u: Fs, w: Fs, d: Journal, all: Log, f: nat, required: nat, offset: nat) returns (a: Fs)
    requires |all| == |d.log| + 2 && |Last(d.log)| <= |all[Top(d.log)]| && Bears(u.card.blocks, all)
    requires all[|d.log|] == [] || all[|d.log| + 1] == []
    requires f < 4 && 8 <= required <= 512 && offset + required > 512
    requires 8000 + |all| + 1 < |u.card.blocks|
    requires Near(u, w, 8000 + Top(d.log)) && PlaceOf(u, d, all, f, required).0 > Top(d.log)
    ensures var at := PlaceOf(u, d, all, f, required);
            && Off(all[at.0], at.1) <= 512 && AllocateFrom(w, f, required, offset, 0) == Outcome(a, true)
            && Placed(u, a, 8000 + at.0, Off(all[at.0], at.1))
  {
    hide Full, Off, Bears, AllocateFrom, Near, Placed;
    var top := Top(d.log);
    BearsBlock(u.card.blocks, all, top + 1);
    BearsBlock(u.card.blocks, all, top + 2);
    a := MovesTo(u, w, all[top + 1], top + 1, f, required, offset, 0);
    if StopIn(Versions(u.header), Priorities(u), all[top + 1], u.settings[f].priority, required, 0).Nowhere? {
      a := MovesTo(u, a, all[top + 2], top + 2, f, required, 512, 1);
    }
  }

  /** The allocator finds that place. */
  lemma FindsPlace(u: Fs, d: Journal, all: Log, f: nat, required: nat) returns (a: Fs)
    requires |all| == |d.log| + 2 && |Last(d.log)| <= |all[Top(d.log)]| && Bears(u.card.blocks, all)
    requires all[|d.log|] == [] || all[|d.log| + 1] == []
    requires Idle(u) && u.header.block == 8000 + Top(d.log) && u.header.offset == Off(all[Top(d.log)], |Last(d.log)|)
    requires f < 4 && 8 <= required <= 512 && 8000 + |all| + 1 < |u.card.blocks|
    ensures var at := PlaceOf(u, d, all, f, required);
            && Off(all[at.0], at.1) <= 512 && Allocate(u, f, required) == Outcome(a, true)
            && Placed(u, a, 8000 + at.0, Off(all[at.0], at.1))
  {
    hide Full, Off, StopIn, Idle, Allocate, AllocateFrom, Sought, Near, Placed, Bears;
    NearItself(u);
    var top, n := Top(d.log), |Last(d.log)|;
    AllocateStarts(u, f, required);
    BearsBlock(u.card.blocks, all, top);
    if u.header.offset + required <= 512 {
      SoughtStops(u, f, required, u.card.blocks[8000 + top], all[top], n);
      a := AllocatesHere(u, f, required);
      if PlaceOf(u, d, all, f, required).0 > top {
        PlacedIsNear(u, u, a, 8000 + top, 8000 + top, u.header.offset);
        a := FindsNext(u, a, d, all, f, required, 512);
      }
    } else {
      a := FindsNext(u, u, d, all, f, required, u.header.offset);
    }
  }

  lemma NearItself(u: Fs)
    requires Idle(u)
    ensures Near(u, u, u.header.block)
  {
  }

  // ----- what is read then -----

  /** The records of file `f` between what the header counts and the place of
      the next entry: those that come back. */
  ghost function Returning(u: Fs, d: Journal, all: Log, f: nat, required: nat): seq<Hit>
    requires f < 4 && |all| == |d.log| + 2 && |Last(d.log)| <= |all[Top(d.log)]|
  {
    var at := PlaceOf(u, d, all, f, required);
    Ahead(all, Top(d.log), |Last(d.log)|, at.0, at.1, f, u.header.files[f].version)
  }

  /** What the header counts of a file is found in the whole log as well. */
  lemma SavedIsUpto(file: FileHeader, d: Journal, all: Log, f: nat)
    requires f < 4 && Describes(file, d, f) && Surpasses(all, d)
    ensures Bounded(file, d, f) && |all| == |d.log| + 2 && |Last(d.log)| <= |all[Top(d.log)]|
    ensures Data(Upto(all, file.startBlock - 8000, Top(d.log), |Last(d.log)|, f, file.version)) == d.contents[f]
  {
    hide Describes, Upto, Data, Off, HitsFrom, Encode, Surpasses;
    DescribesBounds(file, d, f);
    DescribedContents(file, d, f);
    SurpassesBasics(all, d);
    var top, n := Top(d.log), |Last(d.log)|;
    assert all[top][..n] == d.log[top][..n];
    UptoSame(d.log, all, file.startBlock - 8000, top, n, f, file.version);
  }

  /** Up to its next entry, a file reads as the header had it, then what comes back. */
  lemma ReadsUpto(u: Fs, d: Journal, all: Log, f: nat, required: nat)
    requires f < 4 && Describes(u.header.files[f], d, f) && Surpasses(all, d)
    ensures |all| == |d.log| + 2 && |Last(d.log)| <= |all[Top(d.log)]| && Bounded(u.header.files[f], d, f)
    ensures var at, file := PlaceOf(u, d, all, f, required), u.header.files[f];
            Data(Upto(all, file.startBlock - 8000, at.0, at.1, f, file.version))
            == d.contents[f] + Data(Returning(u, d, all, f, required))
  {
    hide Surpasses, Upto, Ahead, Data, Describes, PlaceIn, Off;
    var file := u.header.files[f];
    SavedIsUpto(file, d, all, f);
    var k, top, n, v, at := file.startBlock - 8000, Top(d.log), |Last(d.log)|, file.version,
        PlaceOf(u, d, all, f, required);
    UptoThenAhead(all, k, top, n, at.0, at.1, f, v);
    DataAdds(Upto(all, k, top, n, f, v), Returning(u, d, all, f, required));
  }

  /** The other files end before the new entry. */
  lemma OthersRead(c: Blocks, v: Blocks, d: Journal, all: Log, i: nat, m: nat, r: Rec)
    requires Bears(c, all) && Surpasses(all, d)
    requires Top(d.log) <= i < |all| && m <= |all[i]| && (i == Top(d.log) ==> |Last(d.log)| <= m)
    requires Scribbled(c, v, 8000 + i, Off(all[i], m), RecBytes(r))
    ensures Carried(v, d)
  {
    hide Full, Encode, RecBytes, Splice, Off;
    var top, n := Top(d.log), |Last(d.log)|;
    assert d.log[top][..n] == d.log[top] && all[top][..n] == d.log[top];
    forall k | 0 <= k < top
      ensures Full(v[8000 + k], d.log[k])
    {
      assert v[8000 + k] == c[8000 + k] && all[k] == d.log[k];
    }
    FullHolds(c[8000 + top], all[top]);
    HoldsPrefix(c[8000 + top], all[top], n);
    if i == top { StillHolds(c[8000 + top], all[top], n, m, RecBytes(r)); }
  }

  lemma StillHolds(b: Block, rs: seq<Rec>, n: nat, m: nat, w: seq<byte>)
    requires n <= m <= |rs| && Holds(b, rs[..n]) && Off(rs, m) + |w| <= 512
    ensures Holds(Splice(b, Off(rs, m), w), rs[..n])
  {
    hide Encode;
    OffMonotone(rs, n, m);
    var c := Splice(b, Off(rs, m), w);
    assert c[..Off(rs, n)] == b[..Off(rs, n)];
  }

  /** The next append, on a card that holds more than its header counts. It
      succeeds; its file reads as saved, then the records of its own that come
      back, then the payload; the size counts the payload only; and the other
      files read as saved. */
  lemma NextAppend(u: Fs, d: Journal, all: Log, f: nat, data: seq<byte>)
    requires Overfull(u, d, all) && f < 4 && 1 <= |data| <= MAX_PAYLOAD
    ensures |all| == |d.log| + 2 && |Last(d.log)| <= |all[Top(d.log)]|
    ensures var t, back := Append(u, f, data).fs, Data(Returning(u, d, all, f, ENTRY_SIZE + |data|));
            && Append(u, f, data).ok && Reads(t, f, d.contents[f] + back + [data])
            && t.header.files[f].size == (u.header.files[f].size + |data|) % 0x1_0000_0000
            && (Reads(t, f, d.contents[f] + [data]) <==> back == [])
            && forall g :: 0 <= g < 4 && g != f ==> Reads(t, g, d.contents[g])
  {
    hide Overfull, Append, Reads, Returning;
    AppendReads(u, d, all, f, data);
    var t, back := Append(u, f, data).fs, Data(Returning(u, d, all, f, ENTRY_SIZE + |data|));
    if back == [] {
      assert d.contents[f] + back == d.contents[f];
    } else {
      ReadsOnce(t, f, d.contents[f] + back + [data], d.contents[f] + [data]);
    }
  }

  lemma ReadsOnce(t: Fs, f: nat, p: Payloads, q: Payloads)
    requires f < 4 && Reads(t, f, p) && |p| != |q|
    ensures !Reads(t, f, q)
  {
  }

  lemma AppendReads(u: Fs, d: Journal, all: Log, f: nat, data: seq<byte>)
    requires Overfull(u, d, all) && f < 4 && 1 <= |data| <= MAX_PAYLOAD
    ensures |all| == |d.log| + 2 && |Last(d.log)| <= |all[Top(d.log)]|
    ensures var t := Append(u, f, data).fs;
            && Append(u, f, data).ok
            && Reads(t, f, d.contents[f] + Data(Returning(u, d, all, f, ENTRY_SIZE + |data|)) + [data])
            && t.header.files[f].size == (u.header.files[f].size + |data|) % 0x1_0000_0000
            && forall g :: 0 <= g < 4 && g != f ==> Reads(t, g, d.contents[g])
  {
    hide Overfull, Surpasses, Idle, Placed, Append, Allocate, OneMore, Scribbled, Returning, RecBytes, Reads;
    hide Bears, Tracks;
    hide PlaceOf, Off, Encode;
    OverfullBasics(u, d, all);
    SurpassesBasics(all, d);
    var a := FindsPlace(u, d, all, f, ENTRY_SIZE + |data|);
    var at := PlaceOf(u, d, all, f, ENTRY_SIZE + |data|);
    PlacedHeader(u, a, 8000 + at.0, Off(all[at.0], at.1));
    AppendLandsAt(u, f, data, a);
    var t := Append(u, f, data).fs;
    OwnReads(u, d, all, f, data, t, at);
    forall g | 0 <= g < 4 && g != f
      ensures Reads(t, g, d.contents[g])
    {
      OtherReads(u, d, all, f, data, t, at, g);
    }
  }

  lemma PlacedHeader(u: Fs, a: Fs, block: u32, offset: u16)
    requires Placed(u, a, block, offset)
    ensures a.header == u.header.(block := block, offset := offset)
  {
  }

  /** `t` is `u` with an entry of file `f` at record `at.1` of block `at.0`. */
  ghost predicate Landed1(u: Fs, all: Log, f: nat, data: seq<byte>, t: Fs, at: (nat, nat))
    requires f < 4 && 1 <= |data| <= MAX_PAYLOAD
  {
    && at.0 < |all| && at.1 <= |all[at.0]| && 8000 + at.0 <= MAX32 && Off(all[at.0], at.1) <= 512 && Ring(t)
    && OneMore(u.header.(block := 8000 + at.0, offset := Off(all[at.0], at.1)), t.header, f, |data|)
    && Scribbled(u.card.blocks, ViewBlocks(t), 8000 + at.0, Off(all[at.0], at.1), RecBytes(NewRec(u, f, data)))
  }

  lemma TracksDescribes(h: Header, d: Journal, f: nat)
    requires Tracks(h, d) && f < 4
    ensures Describes(h.files[f], d, f)
  {
    hide Describes, Encode;
  }

  lemma LandedToken(u: Fs, all: Log, f: nat, data: seq<byte>, t: Fs, at: (nat, nat))
    requires f < 4 && 1 <= |data| <= MAX_PAYLOAD && Landed1(u, all, f, data, t, at)
    ensures at.0 < |all| && at.1 <= |all[at.0]| && 8000 + at.0 <= MAX32
            && Off(all[at.0], at.1) + ENTRY_SIZE + |data| <= 0xFFFF
    ensures Ring(t) && Versions(t.header) == Versions(u.header)
    ensures Scribbled(u.card.blocks, ViewBlocks(t), 8000 + at.0, Off(all[at.0], at.1), RecBytes(NewRec(u, f, data)))
    ensures var file := u.header.files[f];
            CreateToken(t.header, f) == Token(f, file.startBlock, file.startOffset, 8000 + at.0,
              Off(all[at.0], at.1) + ENTRY_SIZE + |data|, CreateToken(t.header, f).size)
    ensures t.header.files[f].size == (u.header.files[f].size + |data|) % 0x1_0000_0000
    ensures forall g :: 0 <= g < 4 && g != f ==> t.header.files[g] == u.header.files[g]
  {
    hide Scribbled, RecBytes, Off, ViewBlocks;
  }

  lemma OwnReads(u: Fs, d: Journal, all: Log, f: nat, data: seq<byte>, t: Fs, at: (nat, nat))
    requires Bears(u.card.blocks, all) && Tracks(u.header, d) && Surpasses(all, d) && f < 4
             && 1 <= |data| <= MAX_PAYLOAD
    requires |all| == |d.log| + 2 && |Last(d.log)| <= |all[Top(d.log)]|
             && at == PlaceOf(u, d, all, f, ENTRY_SIZE + |data|)
    requires Landed1(u, all, f, data, t, at)
    ensures Reads(t, f, d.contents[f] + Data(Returning(u, d, all, f, ENTRY_SIZE + |data|)) + [data])
    ensures t.header.files[f].size == (u.header.files[f].size + |data|) % 0x1_0000_0000
  {
    hide Surpasses, Scribbled, RecBytes, Remaining, Data, Returning, Upto, Off, PlaceOf, Tracks, Bears;
    hide ViewBlocks, Encode, Last;
    hide Describes, Landed1;
    TracksDescribes(u.header, d, f);
    LandedToken(u, all, f, data, t, at);
    ReadsUpto(u, d, all, f, ENTRY_SIZE + |data|);
    var file, r := u.header.files[f], NewRec(u, f, data);
    ReadsLanding(u.card.blocks, ViewBlocks(t), all, at.0, at.1, r, Versions(t.header), file.startBlock - 8000,
                 CreateToken(t.header, f));
  }

  lemma OtherReads(u: Fs, d: Journal, all: Log, f: nat, data: seq<byte>, t: Fs, at: (nat, nat), g: nat)
    requires Bears(u.card.blocks, all) && Tracks(u.header, d) && Surpasses(all, d) && f < 4
             && 1 <= |data| <= MAX_PAYLOAD
    requires |all| == |d.log| + 2 && |Last(d.log)| <= |all[Top(d.log)]|
             && at == PlaceOf(u, d, all, f, ENTRY_SIZE + |data|)
    requires Landed1(u, all, f, data, t, at) && g < 4 && g != f
    ensures Reads(t, g, d.contents[g])
  {
    hide Surpasses, Scribbled, RecBytes, Remaining, Final, Data, Bears, Carried, Off, PlaceOf, Describes;
    hide Whole, HitsFrom;
    OthersRead(u.card.blocks, ViewBlocks(t), d, all, at.0, at.1, NewRec(u, f, data));
    var file := u.header.files[g];
    assert Describes(file, d, g);
    DescribesBounds(file, d, g);
    DescribedContents(file, d, g);
    ScanDescribed(Versions(t.header), ViewBlocks(t), file, d, g, file.startBlock - 8000, CreateToken(t.header, g));
  }

  // ----- one record too many -----

  /** The single uncounted record `r` lies in the header's own block, or opens the next one. */
  ghost predicate OneTooMany(d: Journal, all: Log, r: Rec, moved: bool) {
    && |all| == |d.log| + 2
    && if moved then all[Top(d.log)] == Last(d.log) && all[|d.log|] == [r]
       else all[Top(d.log)] == Last(d.log) + [r] && all[|d.log|] == []
  }

  /** Does it belong to file `f` as the recovered header has it? */
  predicate Belongs(u: Fs, r: Rec, f: nat)
    requires f < 4
  {
    r.file == f && r.version == u.header.files[f].version
  }

  /** Is the place `at` behind that record? */
  predicate Past(at: (nat, nat), top: nat, n: nat, moved: bool) {
    if moved then at.0 > top + 1 || (at.0 == top + 1 && at.1 == 1) else at.0 > top || at.1 == n + 1
  }

  /** A record of the file's own is never overwritten: the search steps over it
      unless there is room for the entry in an earlier block. */
  lemma PlaceOfOne(u: Fs, d: Journal, all: Log, r: Rec, moved: bool, f: nat, required: nat)
    requires f < 4 && OneTooMany(d, all, r, moved)
    ensures |Last(d.log)| <= |all[Top(d.log)]|
    ensures var at, top, n := PlaceOf(u, d, all, f, required), Top(d.log), |Last(d.log)|;
            && (Belongs(u, r, f) ==> (Past(at, top, n, moved) <==> !(moved && Off(all[top], n) + required <= 512)))
            && (at.0 == top + 2 ==> at.1 == 0)
  {
    hide Off;
    if Belongs(u, r, f) {
      assert Skips(Versions(u.header), Priorities(u), r, u.settings[f].priority, required);
    }
  }

  lemma AheadOfOne(d: Journal, all: Log, r: Rec, moved: bool, f: nat, v: u16, at: (nat, nat))
    requires OneTooMany(d, all, r, moved) && |Last(d.log)| <= |all[Top(d.log)]|
    requires Top(d.log) <= at.0 <= Top(d.log) + 2 && at.1 <= |all[at.0]|
    requires (at.0 == Top(d.log) ==> |Last(d.log)| <= at.1) && (at.0 == Top(d.log) + 2 ==> at.1 == 0)
    ensures var top, n := Top(d.log), |Last(d.log)|;
            Ahead(all, top, n, at.0, at.1, f, v)
            == if !Past(at, top, n, moved) then []
               else if moved then One(all[top + 1], 8000 + top + 1, 0, f, v) else One(all[top], 8000 + top, n, f, v)
  {
    hide One, Pick;
    var top, n := Top(d.log), |Last(d.log)|;
    var a, b := all[top], all[top + 1];
    PickLast(a, 8000 + top, n, f, v);
    PickLast(b, 8000 + top + 1, 0, f, v);
    PickLast(all[top + 2], 8000 + top + 2, 0, f, v);
    if at.0 == top + 2 {
      assert Upto(all, top + 1, top + 2, 0, f, v)
          == Upto(all, top + 1, top + 1, |b|, f, v) + Pick(all[top + 2], 8000 + top + 2, 0, 0, f, v);
    }
  }

  lemma PickLast(rs: seq<Rec>, b: nat, k: nat, f: nat, v: u16)
    requires k <= |rs|
    ensures Pick(rs, b, k, k, f, v) == []
    ensures k < |rs| ==> Pick(rs, b, k, k + 1, f, v) == One(rs, b, k, f, v)
  {
    hide One;
    if k < |rs| { assert [] + One(rs, b, k, f, v) == One(rs, b, k, f, v); }
  }

  lemma OneReturns(u: Fs, d: Journal, all: Log, r: Rec, moved: bool, f: nat, required: nat)
    requires OneTooMany(d, all, r, moved) && f < 4
    ensures |Last(d.log)| <= |all[Top(d.log)]|
    ensures var fits := Off(all[Top(d.log)], |Last(d.log)|) + required <= 512;
            Data(Returning(u, d, all, f, required)) == if Belongs(u, r, f) && !(moved && fits) then [r.data] else []
  {
    hide Off, PlaceOf, Ahead, Data, One, Past;
    PlaceOfOne(u, d, all, r, moved, f, required);
    var top, n, v, at := Top(d.log), |Last(d.log)|, u.header.files[f].version, PlaceOf(u, d, all, f, required);
    AheadOfOne(d, all, r, moved, f, v, at);
    DataOfOne(if moved then all[top + 1] else all[top], 8000 + (if moved then top + 1 else top), if moved then 0
        else n, f, v);
    NoData();
  }

  /** One record was synced to the card and not counted. The next append to a
      file reads back as saved plus its payload if and only if the record belongs
      to another file or was written under another version, or, where it opened
      a block of its own, the entry still fits the block before. Otherwise the
      record comes back in between. */
  lemma AppendAfterHalfSync(u: Fs, d: Journal, all: Log, r: Rec, moved: bool, f: nat, data: seq<byte>)
    requires Overfull(u, d, all) && OneTooMany(d, all, r, moved) && f < 4 && 1 <= |data| <= MAX_PAYLOAD
    ensures var t := Append(u, f, data).fs;
            var again := Belongs(u, r, f) && !(moved && u.header.offset + ENTRY_SIZE + |data| <= 512);
            && Append(u, f, data).ok
            && Reads(t, f, if again then d.contents[f] + [r.data] + [data] else d.contents[f] + [data])
            && (Reads(t, f, d.contents[f] + [data]) <==> !again)
            && t.header.files[f].size == (u.header.files[f].size + |data|) % 0x1_0000_0000
            && forall g :: 0 <= g < 4 && g != f ==> Reads(t, g, d.contents[g])
  {
    hide Overfull, Surpasses, OneTooMany, Append, Reads, Returning, Belongs, Tracks, Bears, Idle, Data, Off;
    hide Grows, Encode;
    OverfullBasics(u, d, all);
    SurpassesBasics(all, d);
    NextAppend(u, d, all, f, data);
    OneReturns(u, d, all, r, moved, f, ENTRY_SIZE + |data|);
    assert d.contents[f] + [] == d.contents[f];
  }
}
