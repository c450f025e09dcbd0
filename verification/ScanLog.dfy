/** Scanning a card that carries a log of records returns the matching records. */
module ScanLog {
  import opened Bytes
  import opened Entry
  import opened Card
  import opened Layout
  import opened Scan

  /** The records of each block, from block 8000 on. */
  type Log = seq<seq<Rec>>

  function One(rs: seq<Rec>, b: nat, k: nat, f: nat, v: u16): seq<Hit>
    requires k < |rs|
  {
    if rs[k].file == f && rs[k].version == v then [Hit(b, Off(rs, k), rs[k].data)] else []
  }

  lemma DataOfOne(rs: seq<Rec>, b: nat, k: nat, f: nat, v: u16)
    requires k < |rs|
    ensures Data(One(rs, b, k, f, v)) == if rs[k].file == f && rs[k].version == v then [rs[k].data] else []
  {
    hide Off;
  }

  /** The records `lo..hi` of one block that belong to file `f` under version `v`. */
  ghost function Pick(rs: seq<Rec>, b: nat, lo: nat, hi: nat, f: nat, v: u16): seq<Hit>
    requires lo <= hi <= |rs|
  {
    if lo == hi then [] else Pick(rs, b, lo, hi - 1, f, v) + One(rs, b, hi - 1, f, v)
  }

  /** The same over the blocks from `i` up to record `m` of block `e`. */
  ghost function Upto(log: Log, i: nat, e: nat, m: nat, f: nat, v: u16): seq<Hit>
    requires i <= e < |log| && m <= |log[e]|
    decreases e
  {
    if i == e then Pick(log[e], 8000 + e, 0, m, f, v)
    else Upto(log, i, e - 1, |log[e - 1]|, f, v) + Pick(log[e], 8000 + e, 0, m, f, v)
  }

  lemma {:induction false} PickFront(rs: seq<Rec>, b: nat, lo: nat, hi: nat, f: nat, v: u16)
    requires lo < hi <= |rs|
    ensures Pick(rs, b, lo, hi, f, v) == One(rs, b, lo, f, v) + Pick(rs, b, lo + 1, hi, f, v)
  {
    hide One;
    if lo + 1 < hi {
      PickFront(rs, b, lo, hi - 1, f, v);
      Reassociate(One(rs, b, lo, f, v), Pick(rs, b, lo + 1, hi - 1, f, v), One(rs, b, hi - 1, f, v));
    }
  }

  lemma {:induction false} PickSplits(rs: seq<Rec>, b: nat, lo: nat, mid: nat, hi: nat, f: nat, v: u16)
    requires lo <= mid <= hi <= |rs|
    ensures Pick(rs, b, lo, hi, f, v) == Pick(rs, b, lo, mid, f, v) + Pick(rs, b, mid, hi, f, v)
  {
    hide One;
    if mid < hi {
      PickSplits(rs, b, lo, mid, hi - 1, f, v);
      Reassociate(Pick(rs, b, lo, mid, f, v), Pick(rs, b, mid, hi - 1, f, v), One(rs, b, hi - 1, f, v));
    }
  }

  lemma OneSame(rs: seq<Rec>, rs': seq<Rec>, b: nat, k: nat, f: nat, v: u16)
    requires k < |rs| && k < |rs'| && rs[..k + 1] == rs'[..k + 1]
    ensures One(rs, b, k, f, v) == One(rs', b, k, f, v) && rs[..k] == rs'[..k]
  {
    hide Encode;
    assert rs[k] == rs[..k + 1][k] && rs'[k] == rs'[..k + 1][k];
    assert rs[..k] == rs[..k + 1][..k] && rs'[..k] == rs'[..k + 1][..k];
  }

  /** Only the first `hi` records matter. */
  lemma {:induction false} PickSame(rs: seq<Rec>, rs': seq<Rec>, b: nat, lo: nat, hi: nat, f: nat, v: u16)
    requires lo <= hi <= |rs| && hi <= |rs'| && rs[..hi] == rs'[..hi]
    ensures Pick(rs, b, lo, hi, f, v) == Pick(rs', b, lo, hi, f, v)
  {
    hide One;
    if lo < hi {
      OneSame(rs, rs', b, hi - 1, f, v);
      PickSame(rs, rs', b, lo, hi - 1, f, v);
    }
  }

  lemma {:induction false} UptoFront(log: Log, i: nat, e: nat, m: nat, f: nat, v: u16)
    requires i < e < |log| && m <= |log[e]|
    ensures Upto(log, i, e, m, f, v) == Pick(log[i], 8000 + i, 0, |log[i]|, f, v) + Upto(log, i + 1, e, m, f, v)
    decreases e
  {
    hide Pick;
    if i + 1 < e { UptoFront(log, i, e - 1, |log[e - 1]|, f, v); }
  }

  /** Only the blocks before `e` and the first `m` records of block `e` matter. */
  lemma {:induction false} UptoSame(log: Log, log': Log, i: nat, e: nat, m: nat, f: nat, v: u16)
    requires i <= e < |log| && e < |log'| && m <= |log[e]| && m <= |log'[e]|
    requires log[e][..m] == log'[e][..m] && forall j :: 0 <= j < e ==> log[j] == log'[j]
    ensures Upto(log, i, e, m, f, v) == Upto(log', i, e, m, f, v)
    decreases e
  {
    hide Pick;
    PickSame(log[e], log'[e], 8000 + e, 0, m, f, v);
    if i < e { UptoSame(log, log', i, e - 1, |log[e - 1]|, f, v); }
  }

  lemma {:induction false} UptoSplits(log: Log, i: nat, k: nat, e: nat, m: nat, f: nat, v: u16)
    requires i < k <= e < |log| && m <= |log[e]|
    ensures Upto(log, i, e, m, f, v) == Upto(log, i, k - 1, |log[k - 1]|, f, v) + Upto(log, k, e, m, f, v)
    decreases e
  {
    hide Pick;
    if k < e { UptoSplits(log, i, k, e - 1, |log[e - 1]|, f, v); }
  }

  // ----- the scan of one block -----

  /** Scanning over one record returns it if it matches. */
  lemma ScanOver(versions: seq<u16>, blocks: Blocks, t: Token, rs: seq<Rec>, k: nat)
    requires |versions| == 4 && t.file < 4 && InRange(blocks, t) && k < |rs| && !Done(t)
    requires Carries(blocks[t.block], t.offset, rs[k]) && t.offset == Off(rs, k)
    requires Off(rs, k + 1) == Off(rs, k) + |RecBytes(rs[k])| <= 512
    ensures Remaining(versions, blocks, t)
         == One(rs, t.block, k, t.file, versions[t.file]) + Remaining(versions, blocks, t.(offset := Off(rs, k + 1)))
    ensures Final(versions, blocks, t) == Final(versions, blocks, t.(offset := Off(rs, k + 1)))
  {
    hide Check, EntryAt, Encode, RecBytes, Off, Carries, TurnPage;
    TruncationIsExact(versions, blocks[t.block], t.offset, rs[k]);
  }

  /** Scanning over records `k..hi` of a block returns the matching ones. */
  lemma {:induction false} ScanWithin(versions: seq<u16>, blocks: Blocks, t: Token, rs: seq<Rec>, k: nat, hi: nat)
    requires |versions| == 4 && t.file < 4 && InRange(blocks, t) && k <= hi <= |rs|
    requires t.block <= t.lastBlock && Holds(blocks[t.block], rs[..hi]) && t.offset == Off(rs, k)
    requires t.block < t.lastBlock || Off(rs, hi) <= t.lastOffset
    ensures Off(rs, hi) <= 512
    ensures Remaining(versions, blocks, t)
         == Pick(rs, t.block, k, hi, t.file, versions[t.file]) + Remaining(versions, blocks, t.(offset := Off(rs, hi)))
    ensures Final(versions, blocks, t) == Final(versions, blocks, t.(offset := Off(rs, hi)))
    decreases hi - k
  {
    hide Encode, RecBytes, Remaining, Final, Carries, One;
    if k < hi {
      HoldsPrefix(blocks[t.block], rs[..hi], k + 1);
      assert rs[..hi][..k + 1] == rs[..k + 1];
      HeldRecord(blocks[t.block], rs, k);
      OffMonotone(rs, k, hi);
      ScanOver(versions, blocks, t, rs, k);
      PickFront(rs, t.block, k, hi, t.file, versions[t.file]);
      ScanWithin(versions, blocks, t.(offset := Off(rs, k + 1)), rs, k + 1, hi);
    }
  }

  /** At the end of a full block the scan goes to the next one. */
  lemma ScanPastEnd(versions: seq<u16>, blocks: Blocks, t: Token, rs: seq<Rec>)
    requires |versions| == 4 && InRange(blocks, t) && t.block < t.lastBlock
    requires Full(blocks[t.block], rs) && t.offset == |Encode(rs)|
    ensures Remaining(versions, blocks, t) == Remaining(versions, blocks, t.(block := t.block + 1, offset := 0))
    ensures Final(versions, blocks, t) == Final(versions, blocks, t.(block := t.block + 1, offset := 0))
  {
    hide Check, EntryAt, Encode;
    ZeroEndsChain(versions, blocks[t.block], t.offset);
    TurnProgress(versions, blocks, t);
  }

  // ----- the scan of a log -----

  /** The card carries the log at least up to record `m` of block `e`. */
  ghost predicate OnCard(blocks: Blocks, log: Log, e: nat, m: nat) {
    && e < |log| && m <= |log[e]| && 8000 + e + 2 < |blocks|
    && (forall j :: 0 <= j < e ==> Full(blocks[8000 + j], log[j]))
    && Holds(blocks[8000 + e], log[e][..m])
  }

  /** The token stands at record `k` of block `i` and ends at record `m` of block `e`. */
  ghost predicate Spans(t: Token, log: Log, i: nat, k: nat, e: nat, m: nat) {
    && i <= e < |log| && k <= |log[i]| && m <= |log[e]| && (i == e ==> k <= m)
    && t.file < 4 && t.block == 8000 + i && t.offset == Off(log[i], k)
    && t.lastBlock == 8000 + e && t.lastOffset == Off(log[e], m)
  }

  /** What such a token has still to return. */
  ghost function Ahead(log: Log, i: nat, k: nat, e: nat, m: nat, f: nat, v: u16): seq<Hit>
    requires i <= e < |log| && k <= |log[i]| && m <= |log[e]| && (i == e ==> k <= m)
  {
    if i == e then Pick(log[e], 8000 + e, k, m, f, v)
    else Pick(log[i], 8000 + i, k, |log[i]|, f, v) + Upto(log, i + 1, e, m, f, v)
  }

  /** The unlimited scan from any record to any later one returns exactly the
      matching records in between, in order, and comes to rest at its end. */
  lemma {:induction false} ScanFinds(
    versions: seq<u16>, blocks: Blocks, t: Token, log: Log, i: nat, k: nat, e: nat, m: nat)
    requires |versions| == 4 && OnCard(blocks, log, e, m) && Spans(t, log, i, k, e, m)
    ensures Remaining(versions, blocks, t) == Ahead(log, i, k, e, m, t.file, versions[t.file])
    ensures Final(versions, blocks, t) == MoveEnd(t)
    decreases e - i
  {
    hide Remaining, Final, Pick, Encode, Off;
    if i == e {
      ScanWithin(versions, blocks, t, log[e], k, m);
      DoneIsEmpty(versions, blocks, t.(offset := t.lastOffset));
    } else {
      var rs := log[i];
      assert rs[..|rs|] == rs;
      ScanWithin(versions, blocks, t, rs, k, |rs|);
      OffEnd(rs);
      ScanPastEnd(versions, blocks, t.(offset := Off(rs, |rs|)), rs);
      var u := t.(block := t.block + 1, offset := 0);
      OffStart(log[i + 1]);
      ScanFinds(versions, blocks, u, log, i + 1, 0, e, m);
      AheadIsUpto(log, i + 1, e, m, t.file, versions[t.file]);
    }
  }

  lemma OffStart(rs: seq<Rec>)
    ensures Off(rs, 0) == 0
  {
  }

  lemma DoneIsEmpty(versions: seq<u16>, blocks: Blocks, t: Token)
    requires |versions| == 4 && InRange(blocks, t) && Done(t)
    ensures Remaining(versions, blocks, t) == [] && Final(versions, blocks, t) == t
  {
  }

  lemma AheadIsUpto(log: Log, i: nat, e: nat, m: nat, f: nat, v: u16)
    requires i <= e < |log| && m <= |log[e]|
    ensures Ahead(log, i, 0, e, m, f, v) == Upto(log, i, e, m, f, v)
  {
    hide Pick;
    if i < e { UptoFront(log, i, e, m, f, v); }
  }
}
