/** The abstract filesystem: which records each block holds and which payloads
    each file has accepted since it was last truncated; and how a header
    describes one. */
module Journal {
  import opened Bytes
  import opened Header
  import opened Entry
  import opened Card
  import opened Layout
  import opened Scan
  import opened ScanLog

  type Payloads = seq<seq<byte>>

  /** `ends[f]` is the index, in file `f`'s end block, of the record after its
      last one; `bumps[f]` counts truncations since the log entered its current block. */
  datatype Raw = Journal(log: Log, ends: seq<nat>, contents: seq<Payloads>, bumps: seq<nat>)

  type Journal = j: Raw | |j.log| > 0 && |j.ends| == 4 && |j.contents| == 4 && |j.bumps| == 4
    witness Journal([[]], [0, 0, 0, 0], [[], [], [], []], [0, 0, 0, 0])

  function Top(log: Log): nat
    requires |log| > 0
  {
    |log| - 1
  }

  function Total(p: Payloads): nat {
    if |p| == 0 then 0 else Total(p[..|p| - 1]) + |p[|p| - 1]|
  }

  /** Every matching record from block `i` to the end of the log. */
  ghost function Whole(log: Log, i: nat, f: nat, v: u16): seq<Hit>
    requires i < |log|
  {
    Upto(log, i, Top(log), |log[Top(log)]|, f, v)
  }

  /** How far version `w` lies behind version `v`. */
  function Lag(v: u16, w: u16): nat {
    (v - w) % 0x1_0000
  }

  /** A file header describes file `f` of the journal. */
  ghost predicate Describes(file: FileHeader, j: Journal, f: nat)
    requires f < 4
  {
    var i, e := file.startBlock - 8000, file.endBlock - 8000;
    && 0 <= i <= e < |j.log| && j.ends[f] <= |j.log[e]|
    && file.startOffset == 0 && file.endOffset == Off(j.log[e], j.ends[f])
    && Data(Upto(j.log, i, e, j.ends[f], f, file.version)) == j.contents[f]
    && Whole(j.log, i, f, file.version) == Upto(j.log, i, e, j.ends[f], f, file.version)
    && file.size == Total(j.contents[f]) % 0x1_0000_0000
    && Recent(file.version, j.log[Top(j.log)], f, j.bumps[f])
  }

  /** Records of file `f` in `rs` are at most `n` versions old. */
  ghost predicate Recent(v: u16, rs: seq<Rec>, f: nat, n: nat) {
    forall k :: 0 <= k < |rs| && rs[k].file == f ==> Lag(v, rs[k].version) <= n
  }

  /** A header describes the journal. */
  ghost predicate Tracks(h: Header, j: Journal) {
    && h.block == 8000 + Top(j.log)
    && h.offset == |Encode(j.log[Top(j.log)])| <= 512
    && forall f :: 0 <= f < 4 ==> Describes(h.files[f], j, f)
  }

  // ----- the operations, on journals -----

  function Moved(j: Journal): Journal {
    j.(log := j.log + [[]], bumps := [0, 0, 0, 0])
  }

  function Added(j: Journal, r: Rec): Journal {
    var top := Top(j.log);
    j.(log := j.log[top := j.log[top] + [r]], ends := j.ends[r.file := |j.log[top]| + 1],
       contents := j.contents[r.file := j.contents[r.file] + [r.data]])
  }

  function Cut(j: Journal, f: nat): Journal
    requires f < 4
  {
    j.(ends := j.ends[f := 0], contents := j.contents[f := []], bumps := j.bumps[f := j.bumps[f] + 1])
  }

  // ----- moving to a new block -----

  lemma WholeMoved(log: Log, i: nat, f: nat, v: u16)
    requires i < |log|
    ensures Whole(log + [[]], i, f, v) == Whole(log, i, f, v)
  {
    var log' := log + [[]];
    var top := Top(log);
    assert log'[top] == log[top] && log'[|log|] == [];
    assert Upto(log', i, |log|, 0, f, v) == Upto(log', i, top, |log[top]|, f, v) + Pick([], 8000 + |log|, 0, 0, f, v);
    UptoSame(log, log', i, top, |log[top]|, f, v);
  }

  lemma MovedDescribes(file: FileHeader, j: Journal, f: nat)
    requires f < 4 && Describes(file, j, f)
    ensures Describes(file, Moved(j), f)
  {
    hide Upto, Off, Encode;
    var i, e := file.startBlock - 8000, file.endBlock - 8000;
    WholeMoved(j.log, i, f, file.version);
    UptoSame(j.log, Moved(j).log, i, e, j.ends[f], f, file.version);
    assert Moved(j).log[e] == j.log[e];
  }

  /** Moving on keeps every file's contents. */
  lemma MovedTracks(h: Header, j: Journal, h': Header)
    requires Tracks(h, j) && h'.files == h.files && h'.block == h.block + 1 && h'.offset == 0
    ensures Tracks(h', Moved(j))
  {
    hide Describes, Upto;
    forall f | 0 <= f < 4
      ensures Describes(h'.files[f], Moved(j), f)
    {
      MovedDescribes(h.files[f], j, f);
    }
  }

  // ----- adding a record -----

  lemma PickAdded(rs: seq<Rec>, r: Rec, b: nat, f: nat, v: u16)
    ensures Pick(rs + [r], b, 0, |rs| + 1, f, v)
         == Pick(rs, b, 0, |rs|, f, v) + if r.file == f && r.version == v then [Hit(b, |Encode(rs)|, r.data)] else []
  {
    hide Encode;
    var rs' := rs + [r];
    assert rs'[..|rs|] == rs && rs[..|rs|] == rs;
    PickSame(rs, rs', b, 0, |rs|, f, v);
  }

  /** One more record at the end adds one more hit, if it matches. */
  lemma WholeAdded(log: Log, r: Rec, i: nat, f: nat, v: u16)
    requires i < |log|
    ensures var top := Top(log);
            Whole(log[top := log[top] + [r]], i, f, v)
            == Whole(log, i, f, v)
               + if r.file == f && r.version == v then [Hit(8000 + top, |Encode(log[top])|, r.data)] else []
  {
    hide Pick, Encode;
    var top := Top(log);
    var log' := log[top := log[top] + [r]];
    PickAdded(log[top], r, 8000 + top, f, v);
    if i < top {
      UptoSame(log, log', i, top - 1, |log[top - 1]|, f, v);
    }
  }

  lemma AddedDescribesOther(file: FileHeader, j: Journal, r: Rec, f: nat)
    requires f < 4 && f != r.file && Describes(file, j, f)
    ensures Describes(file, Added(j, r), f)
  {
    hide Upto, Encode;
    var i, e, m := file.startBlock - 8000, file.endBlock - 8000, j.ends[f];
    var log' := Added(j, r).log;
    WholeAdded(j.log, r, i, f, file.version);
    assert log'[e][..m] == j.log[e][..m];
    UptoSame(j.log, log', i, e, m, f, file.version);
  }

  lemma TotalAdded(p: Payloads, d: seq<byte>)
    ensures Total(p + [d]) == Total(p) + |d|
  {
    assert (p + [d])[..|p|] == p;
  }

  /** The owner's header after an append. */
  function Grown(file: FileHeader, block: u32, end: u16, n: nat): FileHeader {
    file.(endBlock := block, endOffset := end, size := (file.size + n) % 0x1_0000_0000)
  }

  lemma AddedDescribesOwn(file: FileHeader, j: Journal, r: Rec, end: u16)
    requires Describes(file, j, r.file) && file.version == r.version
    requires end == |Encode(j.log[Top(j.log)])| + |RecBytes(r)| && Top(j.log) + 8000 <= MAX32
    ensures Describes(Grown(file, 8000 + Top(j.log), end, |r.data|), Added(j, r), r.file)
  {
    hide Upto, Encode, RecBytes, Data, Off;
    var f, v, i := r.file, file.version, file.startBlock - 8000;
    var top := Top(j.log);
    var rs, rs' := j.log[top], j.log[top] + [r];
    var hit := Hit(8000 + top, |Encode(rs)|, r.data);
    WholeAdded(j.log, r, i, f, v);
    DataAdds(Whole(j.log, i, f, v), [hit]);
    TotalAdded(j.contents[f], r.data);
    AddedEnd(rs, r);
    assert Added(j, r).log[top] == rs';
    assert Whole(Added(j, r).log, i, f, v) == Upto(Added(j, r).log, i, top, |rs| + 1, f, v);
    DataOne(hit);
    assert Recent(v, rs', f, j.bumps[f]);
  }

  lemma AddedEnd(rs: seq<Rec>, r: Rec)
    ensures Off(rs + [r], |rs| + 1) == |Encode(rs)| + |RecBytes(r)|
  {
    var rs' := rs + [r];
    assert rs'[..|rs| + 1] == rs' && rs'[..|rs|] == rs;
  }

  lemma DataOne(h: Hit)
    ensures Data([h]) == [h.data]
  {
  }

  /** An append adds its payload to its own file and to no other. */
  lemma AddedTracks(h: Header, j: Journal, r: Rec, h': Header)
    requires Tracks(h, j) && h.files[r.file].version == r.version && h.offset + |RecBytes(r)| <= 512
    requires h'.block == h.block && h'.offset == h.offset + |RecBytes(r)|
    requires h'.files == h.files[r.file := Grown(h.files[r.file], h.block, h'.offset, |r.data|)]
    ensures Tracks(h', Added(j, r))
  {
    hide Describes, RecBytes, Encode, Grown;
    var rs := j.log[Top(j.log)];
    AddedLength(rs, r);
    forall f | 0 <= f < 4
      ensures Describes(h'.files[f], Added(j, r), f)
    {
      if f == r.file {
        AddedDescribesOwn(h.files[f], j, r, h'.offset);
      } else {
        AddedDescribesOther(h.files[f], j, r, f);
      }
    }
  }

  lemma AddedLength(rs: seq<Rec>, r: Rec)
    ensures |Encode(rs + [r])| == |Encode(rs)| + |RecBytes(r)|
  {
    assert (rs + [r])[..|rs|] == rs;
  }

  // ----- truncating -----

  lemma {:induction false} PickNone(rs: seq<Rec>, b: nat, hi: nat, f: nat, v: u16)
    requires hi <= |rs| && forall k :: 0 <= k < |rs| && rs[k].file == f ==> rs[k].version != v
    ensures Pick(rs, b, 0, hi, f, v) == []
  {
    if hi > 0 { PickNone(rs, b, hi - 1, f, v); }
  }

  /** The truncated file's header. */
  function Emptied(file: FileHeader, block: u32): FileHeader {
    FileHeader(file.name, Inc16(file.version), block, 0, block, 0, 0)
  }

  lemma LagBumped(v: u16, w: u16, n: nat)
    requires Lag(v, w) <= n < 0xFFFF
    ensures w != Inc16(v) && Lag(Inc16(v), w) <= n + 1
  {
  }

  lemma CutRecent(v: u16, rs: seq<Rec>, f: nat, n: nat)
    requires Recent(v, rs, f, n) && n < 0xFFFF
    ensures Recent(Inc16(v), rs, f, n + 1)
    ensures forall k :: 0 <= k < |rs| && rs[k].file == f ==> rs[k].version != Inc16(v)
  {
    hide Lag, Inc16;
    forall k | 0 <= k < |rs| && rs[k].file == f
      ensures rs[k].version != Inc16(v) && Lag(Inc16(v), rs[k].version) <= n + 1
    {
      LagBumped(v, rs[k].version, n);
    }
  }

  lemma CutDescribesOwn(file: FileHeader, j: Journal, f: nat)
    requires f < 4 && Describes(file, j, f) && j.bumps[f] < 0xFFFF && Top(j.log) + 8000 <= MAX32
    ensures Describes(Emptied(file, 8000 + Top(j.log)), Cut(j, f), f)
  {
    hide Encode, Off, Lag, Inc16, Recent, Pick;
    var top := Top(j.log);
    var rs, v := j.log[top], Inc16(file.version);
    CutRecent(file.version, rs, f, j.bumps[f]);
    PickNone(rs, 8000 + top, |rs|, f, v);
    PickNone(rs, 8000 + top, 0, f, v);
    OffStart(rs);
    assert Upto(j.log, top, top, 0, f, v) == [] && Whole(j.log, top, f, v) == [];
  }

  /** Truncation empties one file, provided it was not truncated 65535 times
      since the log entered its current block. */
  lemma CutTracks(h: Header, j: Journal, f: nat, h': Header)
    requires f < 4 && Tracks(h, j) && j.bumps[f] < 0xFFFF
    requires h'.block == h.block && h'.offset == h.offset
    requires h'.files == h.files[f := Emptied(h.files[f], h.block)]
    ensures Tracks(h', Cut(j, f))
  {
    hide Encode, Emptied, Upto;
    forall g | 0 <= g < 4
      ensures Describes(h'.files[g], Cut(j, f), g)
    {
      if g == f {
        CutDescribesOwn(h.files[f], j, f);
      } else {
        assert Describes(h.files[g], j, g);
      }
    }
  }

  lemma TracksFrame(h: Header, j: Journal, h': Header)
    requires Tracks(h, j) && h'.block == h.block && h'.offset == h.offset && h'.files == h.files
    ensures Tracks(h', j)
  {
  }

  // ----- reading -----

  /** The card carries the whole journal. */
  ghost predicate Carried(blocks: Blocks, j: Journal) {
    OnCard(blocks, j.log, Top(j.log), |j.log[Top(j.log)]|)
  }

  /** Where a described file begins and ends. */
  ghost predicate Bounded(file: FileHeader, j: Journal, f: nat)
    requires f < 4
  {
    && 8000 <= file.startBlock <= file.endBlock < 8000 + |j.log| && j.ends[f] <= |j.log[file.endBlock - 8000]|
    && file.startOffset == 0 && file.endOffset == Off(j.log[file.endBlock - 8000], j.ends[f])
  }

  lemma DescribesBounds(file: FileHeader, j: Journal, f: nat)
    requires f < 4 && Describes(file, j, f)
    ensures Bounded(file, j, f)
  {
    hide Off, Upto, Encode, Lag;
  }

  /** The file's hits from the `k`-th block of the log on. */
  ghost function HitsFrom(file: FileHeader, j: Journal, f: nat, k: nat): seq<Hit>
    requires f < 4 && Bounded(file, j, f) && 8000 + k <= file.endBlock
  {
    Upto(j.log, k, file.endBlock - 8000, j.ends[f], f, file.version)
  }

  /** Scanning a described file from the start of any of its blocks. */
  lemma ScanDescribed(versions: seq<u16>, blocks: Blocks, file: FileHeader, j: Journal, f: nat, k: nat, t: Token)
    requires |versions| == 4 && f < 4 && Bounded(file, j, f) && Carried(blocks, j) && versions[f] == file.version
    requires 8000 + k <= file.endBlock && t == Token(f, 8000 + k, 0, file.endBlock, file.endOffset, t.size)
    ensures InRange(blocks, t) && Remaining(versions, blocks, t) == HitsFrom(file, j, f, k)
    ensures Final(versions, blocks, t) == MoveEnd(t)
  {
    hide Upto, Off, Encode, Remaining, Final, Full, Holds, Pick;
    var e, m := file.endBlock - 8000, j.ends[f];
    CarriedUpto(blocks, j.log, e, m);
    OffStart(j.log[k]);
    ScanFinds(versions, blocks, t, j.log, k, 0, e, m);
    AheadIsUpto(j.log, k, e, m, f, file.version);
  }

  lemma DescribedContents(file: FileHeader, j: Journal, f: nat)
    requires f < 4 && Describes(file, j, f) && Bounded(file, j, f)
    ensures Data(HitsFrom(file, j, f, file.startBlock - 8000)) == j.contents[f]
    ensures HitsFrom(file, j, f, file.startBlock - 8000) == Whole(j.log, file.startBlock - 8000, f, file.version)
    ensures file.size == Total(j.contents[f]) % 0x1_0000_0000
  {
    hide Off, Upto, Encode, Lag, Data;
  }

  /** From any card that carries what a header describes, the unlimited scan of
      a file returns exactly that file's contents and rests at its end. */
  lemma ReadsContents(blocks: Blocks, h: Header, j: Journal, f: nat)
    requires f < 4 && Tracks(h, j) && Carried(blocks, j)
    ensures InRange(blocks, CreateToken(h, f))
    ensures Data(Remaining(Versions(h), blocks, CreateToken(h, f))) == j.contents[f]
    ensures Final(Versions(h), blocks, CreateToken(h, f)) == MoveEnd(CreateToken(h, f))
    ensures h.files[f].size == Total(j.contents[f]) % 0x1_0000_0000
  {
    hide Encode, Describes, Carried, Remaining, Final, Data, HitsFrom, Whole, Total;
    var file := h.files[f];
    assert Describes(file, j, f);
    DescribesBounds(file, j, f);
    DescribedContents(file, j, f);
    ScanDescribed(Versions(h), blocks, file, j, f, file.startBlock - 8000, CreateToken(h, f));
  }

  lemma CarriedUpto(blocks: Blocks, log: Log, e: nat, m: nat)
    requires |log| > 0 && e < |log| && m <= |log[e]| && OnCard(blocks, log, Top(log), |log[Top(log)]|)
    ensures OnCard(blocks, log, e, m)
  {
    hide Encode;
    var rs := log[e];
    assert rs[..|rs|] == rs;
    HoldsPrefix(blocks[8000 + e], rs, m);
  }
}
