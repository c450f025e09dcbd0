/** What the card by itself holds of a live volume while the newest entries are
    still in the buffer only. */
module Unsynced {
  import opened Bytes
  import opened Header
  import opened Entry
  import opened Card
  import opened Fs
  import opened Cache
  import opened Layout
  import opened Scan
  import opened ScanLog
  import opened Journal
  import opened LiveVolume
  import opened Incremental

  function Last(log: Log): seq<Rec>
    requires |log| > 0
  {
    log[Top(log)]
  }

  /** The log with only the first `n` records of its last block. */
  function Part(log: Log, n: nat): (part: Log)
    requires |log| > 0 && n <= |Last(log)|
    ensures |part| == |log| && Last(part) == Last(log)[..n]
  {
    log[Top(log) := Last(log)[..n]]
  }

  lemma PartWhole(log: Log)
    requires |log| > 0
    ensures Part(log, |Last(log)|) == log
  {
    assert Last(log)[..|Last(log)|] == Last(log);
  }

  /** All but the last block, and `n` records of that, are on the card; the rest
      waits in a dirty buffer. */
  ghost predicate Written(s: Fs, j: Journal, n: nat) {
    && n <= |Last(j.log)| && (!s.dirty ==> n == |Last(j.log)|)
    && forall b :: 8000 <= b < |s.card.blocks| ==> Full(s.card.blocks[b], Recs(Part(j.log, n), b))
  }

  lemma WrittenClean(s: Fs, j: Journal)
    requires Live(s, j) && !s.dirty
    ensures Written(s, j, |Last(j.log)|)
  {
    hide Full, Tracks;
    PartWhole(j.log);
    forall b | 8000 <= b < |s.card.blocks|
      ensures Full(s.card.blocks[b], Recs(j.log, b))
    {
      assert View(s, b) == s.card.blocks[b];
    }
  }

  // ----- what is on the card and what waits -----

  /** The hits of file `f` that are on the card ... */
  ghost function Landed(file: FileHeader, j: Journal, n: nat, f: nat): seq<Hit>
    requires n <= |Last(j.log)| && 8000 <= file.startBlock < 8000 + |j.log|
  {
    Whole(Part(j.log, n), file.startBlock - 8000, f, file.version)
  }

  /** ... and those that wait in the buffer. */
  ghost function Waiting(file: FileHeader, j: Journal, n: nat, f: nat): seq<Hit>
    requires n <= |Last(j.log)|
  {
    Pick(Last(j.log), 8000 + Top(j.log), n, |Last(j.log)|, f, file.version)
  }

  lemma LandedThenWaiting(file: FileHeader, j: Journal, n: nat, f: nat)
    requires n <= |Last(j.log)| && 8000 <= file.startBlock < 8000 + |j.log|
    ensures Whole(j.log, file.startBlock - 8000, f, file.version) == Landed(file, j, n, f) + Waiting(file, j, n, f)
  {
    hide Pick;
    var log, part, top, i, v := j.log, Part(j.log, n), Top(j.log), file.startBlock - 8000, file.version;
    var rs := log[top];
    PickSplits(rs, 8000 + top, 0, n, |rs|, f, v);
    assert rs[..n] == rs[..n][..n];
    PickSame(rs, rs[..n], 8000 + top, 0, n, f, v);
    if i < top {
      UptoSame(log, part, i, top - 1, |log[top - 1]|, f, v);
    }
  }

  /** A file's contents are what is on the card, then what waits. */
  lemma ContentsSplit(file: FileHeader, j: Journal, n: nat, f: nat)
    requires f < 4 && Describes(file, j, f) && n <= |Last(j.log)|
    ensures 8000 <= file.startBlock < 8000 + |j.log|
    ensures j.contents[f] == Data(Landed(file, j, n, f)) + Data(Waiting(file, j, n, f))
  {
    hide Describes, Landed, Waiting, Whole, Data, HitsFrom;
    DescribesBounds(file, j, f);
    DescribedContents(file, j, f);
    LandedThenWaiting(file, j, n, f);
    DataAdds(Landed(file, j, n, f), Waiting(file, j, n, f));
  }

  lemma OneEmpty(rs: seq<Rec>, b: nat, k: nat, f: nat, v: u16)
    requires k < |rs|
    ensures One(rs, b, k, f, v) == [] <==> !(rs[k].file == f && rs[k].version == v)
  {
  }

  /** Nothing is picked exactly if no record matches. */
  lemma {:induction false} PickEmpty(rs: seq<Rec>, b: nat, lo: nat, hi: nat, f: nat, v: u16)
    requires lo <= hi <= |rs|
    ensures Pick(rs, b, lo, hi, f, v) == [] <==> forall k :: lo <= k < hi ==> !(rs[k].file == f && rs[k].version == v)
  {
    hide Off, One;
    if lo < hi {
      PickEmpty(rs, b, lo, hi - 1, f, v);
      OneEmpty(rs, b, hi - 1, f, v);
      var p, q := Pick(rs, b, lo, hi - 1, f, v), One(rs, b, hi - 1, f, v);
      assert |p + q| == |p| + |q|;
    }
  }

  // ----- scanning a card that ends early -----

  /** The block begins with the chain, and the scan finds no entry after it. */
  ghost predicate Ends(versions: seq<u16>, b: Block, rs: seq<Rec>)
    requires |versions| == 4
  {
    Holds(b, rs) && Check(versions, b, |Encode(rs)|).Size?
  }

  lemma FullEnds(versions: seq<u16>, b: Block, rs: seq<Rec>)
    requires |versions| == 4 && Full(b, rs)
    ensures Ends(versions, b, rs)
  {
    hide Check, Encode;
    ZeroEndsChain(versions, b, |Encode(rs)|);
  }

  /** At the end of the last block's chain the scan is over, wherever the token's end lies. */
  lemma ScanStops(versions: seq<u16>, blocks: Blocks, t: Token, rs: seq<Rec>)
    requires |versions| == 4 && InRange(blocks, t) && t.block == t.lastBlock
    requires Ends(versions, blocks[t.block], rs) && t.offset == |Encode(rs)|
    ensures Remaining(versions, blocks, t) == []
  {
    hide Check, EntryAt, Encode;
    if !Done(t) { TurnProgress(versions, blocks, t); }
  }

  /** A token that ends beyond what the last block holds returns all there is. */
  lemma {:induction false} ScanRunsOut(versions: seq<u16>, blocks: Blocks, t: Token, log: Log, i: nat, e: nat)
    requires |versions| == 4 && t.file < 4 && i <= e < |log| && 8000 + e + 2 < |blocks|
    requires (forall k :: 0 <= k < e ==> Full(blocks[8000 + k], log[k])) && Ends(versions, blocks[8000 + e], log[e])
    requires t.block == 8000 + i && t.offset == 0 && t.lastBlock == 8000 + e && |Encode(log[e])| <= t.lastOffset
    ensures Remaining(versions, blocks, t) == Upto(log, i, e, |log[e]|, t.file, versions[t.file])
    decreases e - i
  {
    hide Remaining, Final, Pick, Encode, Off, Full, Check;
    var rs := log[i];
    assert rs[..|rs|] == rs;
    if i < e { FullHolds(blocks[t.block], rs); }
    OffStart(rs);
    OffEnd(rs);
    ScanWithin(versions, blocks, t, rs, 0, |rs|);
    var u := t.(offset := Off(rs, |rs|));
    if i == e {
      ScanStops(versions, blocks, u, rs);
    } else {
      ScanPastEnd(versions, blocks, u, rs);
      ScanRunsOut(versions, blocks, t.(block := t.block + 1), log, i + 1, e);
      UptoFront(log, i, e, |log[e]|, t.file, versions[t.file]);
    }
  }

  /** Every block of the log is on the card, followed by zeros. */
  ghost predicate Bears(blocks: Blocks, log: Log) {
    8000 + |log| + 1 < |blocks| && forall k :: 0 <= k < |log| ==> Full(blocks[8000 + k], log[k])
  }

  /** The file ends among the records that are on the card: nothing of it waits. */
  lemma EndLanded(file: FileHeader, j: Journal, n: nat, f: nat, e: nat, m: nat)
    requires f < 4 && Describes(file, j, f) && Bounded(file, j, f) && n <= |Last(j.log)|
    requires file.endBlock == 8000 + e && m == j.ends[f] && (e < Top(j.log) || m <= n)
    ensures m <= |Part(j.log, n)[e]| && Off(Part(j.log, n)[e], m) == file.endOffset
    ensures Upto(Part(j.log, n), file.startBlock - 8000, e, m, f, file.version) == Landed(file, j, n, f)
  {
    hide Pick, Encode, Data, Lag, Recent;
    var log, part, top := j.log, Part(j.log, n), Top(j.log);
    var i, v := file.startBlock - 8000, file.version;
    assert log[e][..m] == part[e][..m];
    UptoSame(log, part, i, e, m, f, v);
    LandedThenWaiting(file, j, n, f);
    UptoThenAhead(part, i, e, m, top, n, f, v);
    var x, a, w := Upto(part, i, e, m, f, v), Ahead(part, e, m, top, n, f, v), Waiting(file, j, n, f);
    assert x == (x + a) + w;
    assert |x| == |x| + |a| + |w|;
    assert x + a == x;
  }

  /** Scanning the card alone under the live header returns what is on the card. */
  lemma ScanLanded(blocks: Blocks, h: Header, j: Journal, n: nat, f: nat)
    requires f < 4 && Tracks(h, j) && n <= |Last(j.log)| && Bears(blocks, Part(j.log, n))
    ensures InRange(blocks, CreateToken(h, f)) && 8000 <= h.files[f].startBlock < 8000 + |j.log|
    ensures Remaining(Versions(h), blocks, CreateToken(h, f)) == Landed(h.files[f], j, n, f)
  {
    hide Describes, Remaining, Final, Pick, Encode, Full, Upto, Ends;
    var file, part, t, top := h.files[f], Part(j.log, n), CreateToken(h, f), Top(j.log);
    assert Describes(file, j, f);
    DescribesBounds(file, j, f);
    var i, e, m := file.startBlock - 8000, file.endBlock - 8000, j.ends[f];
    if e < top || m <= n {
      EndLanded(file, j, n, f, e, m);
      PartOnCard(blocks, part, e, m);
      OffStart(part[i]);
      ScanFinds(Versions(h), blocks, t, part, i, 0, e, m);
      AheadIsUpto(part, i, e, m, f, file.version);
    } else {
      OffMonotone(j.log[top], n, m);
      FullEnds(Versions(h), blocks[8000 + top], part[top]);
      ScanRunsOut(Versions(h), blocks, t, part, i, top);
    }
  }

  lemma PartOnCard(blocks: Blocks, part: Log, e: nat, m: nat)
    requires e < |part| && m <= |part[e]| && Bears(blocks, part)
    ensures OnCard(blocks, part, e, m)
  {
    hide Full, Encode;
    FullHolds(blocks[8000 + e], part[e]);
    HoldsPrefix(blocks[8000 + e], part[e], m);
  }

  lemma WrittenBlocks(s: Fs, j: Journal, n: nat)
    requires Live(s, j) && Written(s, j, n)
    ensures Bears(s.card.blocks, Part(j.log, n))
  {
    hide Full, Describes, Encode;
    forall k | 0 <= k < |j.log|
      ensures Full(s.card.blocks[8000 + k], Part(j.log, n)[k])
    {
      assert Recs(Part(j.log, n), 8000 + k) == Part(j.log, n)[k];
    }
  }

  // ----- the bytes of a chain decode in one way only -----

  lemma SameRecord(b: Block, off: nat, r: Rec, q: Rec)
    requires Carries(b, off, r) && Carries(b, off, q)
    ensures r == q
  {
    hide Check, Carries, EntryAt, RecBytes, Occupied;
    var v := [r.version, r.version, r.version, r.version];
    TruncationIsExact(v, b, off, r);
    TruncationIsExact(v, b, off, q);
  }

  /** Of two chains at the start of one block the shorter begins the longer. */
  lemma {:induction false} ChainsDecode(b: Block, a: seq<Rec>, rs: seq<Rec>)
    requires Holds(b, a) && Holds(b, rs) && |Encode(a)| <= |Encode(rs)|
    ensures a <= rs
  {
    hide Encode, Carries, RecBytes;
    if |a| > 0 {
      var m := |a| - 1;
      HoldsPrefix(b, a, m);
      EncodePrefix(a, m);
      ChainsDecode(b, a[..m], rs);
      assert a[..m] == rs[..m];
      assert a[..m + 1] == a && a[..|a|] == a && rs[..|rs|] == rs;
      HeldRecord(b, a, m);
      HoldsPrefix(b, rs, if m < |rs| then m + 1 else m);
      if m < |rs| {
        HeldRecord(b, rs, m);
        SameRecord(b, Off(a, m), a[m], rs[m]);
      }
    }
  }

  lemma LongerShows(b: Block, a: seq<Rec>, rs: seq<Rec>)
    requires Full(b, a) && Holds(b, rs) && a <= rs
    ensures a == rs
  {
    hide Encode, Carries, RecBytes;
    if |a| < |rs| {
      var n := |a|;
      assert rs[..n] == a;
      HoldsPrefix(b, rs, n + 1);
      HeldRecord(b, rs, n);
      TruncationIsExact([0, 0, 0, 0], b, Off(rs, n), rs[n]);
      ZeroEndsChain([0, 0, 0, 0], b, Off(rs, n));
    }
  }

  /** A block is full of one chain only. */
  lemma FullUnique(b: Block, a: seq<Rec>, rs: seq<Rec>)
    requires Full(b, a) && Full(b, rs)
    ensures a == rs
  {
    hide Encode;
    if |Encode(a)| <= |Encode(rs)| {
      ChainsDecode(b, a, rs);
      LongerShows(b, a, rs);
    } else {
      ChainsDecode(b, rs, a);
      LongerShows(b, rs, a);
    }
  }
}
