/** Reading on: a saved token, later appends, and a reopened scan. */
module Incremental {
  import opened Bytes
  import opened Header
  import opened Entry
  import opened Card
  import opened Fs
  import opened Cache
  import opened Layout
  import opened Scan
  import opened ScanLog
  import opened Journal
  import opened LiveVolume
  import opened Runs

  /** The later log extends the earlier one. */
  ghost predicate Grows(a: Log, b: Log)
    requires |a| > 0
  {
    && |a| <= |b| && a[Top(a)] <= b[Top(a)]
    && forall i :: 0 <= i < Top(a) ==> a[i] == b[i]
  }

  /** A file's part of the header that only truncation changes. */
  ghost predicate SameLife(a: FileHeader, b: FileHeader) {
    b.startBlock == a.startBlock && b.version == a.version && b.startOffset == a.startOffset
  }

  lemma FollowGrows(s: Fs, j: Journal, op: Op)
    requires Legal(op)
    ensures Grows(j.log, Follow(s, j, op).log)
  {
    hide Allocate;
  }

  /** The later end of a file is not before the earlier one. */
  ghost predicate Later(a: FileHeader, j: Journal, b: FileHeader, k: Journal, f: nat)
    requires f < 4
  {
    a.endBlock < b.endBlock || (a.endBlock == b.endBlock && j.ends[f] <= k.ends[f])
  }

  lemma PutLife(s: Fs, g: nat, data: seq<byte>, f: nat)
    requires g < 4 && f < 4 && 1 <= |data| <= MAX_PAYLOAD && s.header.offset + ENTRY_SIZE + |data| <= 512
    ensures SameLife(s.header.files[f], Put(s, g, data).header.files[f])
    ensures Put(s, g, data).header.files[f].endBlock == if f == g then s.header.block else s.header.files[f].endBlock
  {
    hide Splice, RecBytes;
  }

  lemma AllocateLife(s: Fs, f: nat, required: nat)
    requires Coherent(s) && f < 4 && 8 <= required <= 512
    ensures var a := Allocate(s, f, required);
            a.fs.header.files == s.header.files && Coherent(a.fs) && (a.ok ==> a.fs.cached == a.fs.header.block)
  {
    hide Allocate, Coherent;
    var k := AllocateIsSafe(s, f, required);
  }

  lemma FsyncLife(s: Fs)
    requires Coherent(s)
    ensures Fsync(s).fs.header.files == s.header.files && Fsync(s).fs.header.block == s.header.block
  {
    hide Fsync;
    FsyncKeeps(s);
  }

  lemma AppendLife(s: Fs, g: nat, data: seq<byte>, f: nat)
    requires Coherent(s) && g < 4 && f < 4 && |data| <= 65528
    ensures var t := Append(s, g, data).fs;
            && SameLife(s.header.files[f], t.header.files[f])
            && t.header.files[f].endBlock
               == if f == g && Took(s, g, data) then t.header.block else s.header.files[f].endBlock
  {
    hide Allocate, Fsync, Put, Coherent;
    if Admitted(|data|) {
      var required := ENTRY_SIZE + |data|;
      AllocateLife(s, g, required);
      var a := Allocate(s, g, required);
      if a.ok {
        PutFacts(a.fs, g, data);
        PutLife(a.fs, g, data, f);
        FsyncLife(Put(a.fs, g, data));
      }
    }
  }

  lemma StepLife(s: Fs, j: Journal, op: Op, f: nat)
    requires Legal(op) && Live(s, j) && Ready(s, j, op) && f < 4 && !Cuts(op, f)
    ensures SameLife(s.header.files[f], Do(s, op).fs.header.files[f])
    ensures !op.AppendTo? ==> Do(s, op).fs.header.files[f].endBlock == s.header.files[f].endBlock
  {
    LiveIsCoherent(s, j);
    hide Live, Coherent, Do, Ready, Took;
    match op
    case AppendTo(g, data) => DoesAppend(s, g, data); AppendLife(s, g, data, f);
    case TouchAt(time) => DoesTouch(s, time); TouchLife(s, time);
    case FlushAt(time) => DoesTouch(s, time); FlushLife(s, time);
    case _ => QuietLife(s, op, f);
  }

  lemma DoesAppend(s: Fs, g: nat, data: seq<byte>)
    requires g < 4 && |data| <= 65528
    ensures Do(s, AppendTo(g, data)) == Append(s, g, data)
  {
    hide Append;
  }

  lemma QuietLife(s: Fs, op: Op, f: nat)
    requires Legal(op) && f < 4 && !Cuts(op, f) && (op.TruncateFile? || op.TruncateEvery? || op.Load?)
    ensures SameLife(s.header.files[f], Do(s, op).fs.header.files[f])
    ensures Do(s, op).fs.header.files[f].endBlock == s.header.files[f].endBlock
  {
  }

  lemma TouchLife(s: Fs, time: u32)
    requires Coherent(s)
    ensures Coherent(Touch(s, time).fs) && Touch(s, time).fs.header.files == s.header.files
  {
    hide HeaderWrite;
    HeaderWriteKeeps(s.(header := s.header.(time := time)), false);
  }

  lemma FlushLife(s: Fs, time: u32)
    requires Coherent(s)
    ensures Flush(s, time).fs.header.files == s.header.files
  {
    hide Touch, Fsync, Coherent;
    TouchLife(s, time);
    FsyncKeeps(Touch(s, time).fs);
  }

  lemma AppendLater(s: Fs, j: Journal, g: nat, data: seq<byte>, f: nat)
    requires Coherent(s) && g < 4 && f < 4 && |data| <= 65528
    requires 8000 <= s.header.files[f].endBlock <= 8000 + Top(j.log)
    requires j.ends[f] <= |j.log[s.header.files[f].endBlock - 8000]|
    requires Append(s, g, data).fs.header.block == 8000 + Top(AfterAppend(s, j, g, data).log)
    ensures Later(s.header.files[f], j, Append(s, g, data).fs.header.files[f], AfterAppend(s, j, g, data), f)
  {
    hide Append, Allocate, Coherent;
    AppendLife(s, g, data, f);
  }

  lemma StepLater(s: Fs, j: Journal, op: Op, f: nat)
    requires Legal(op) && Live(s, j) && Ready(s, j, op) && f < 4 && !Cuts(op, f)
    ensures Later(s.header.files[f], j, Do(s, op).fs.header.files[f], Follow(s, j, op), f)
  {
    assert Describes(s.header.files[f], j, f);
    LiveIsCoherent(s, j);
    hide Live, Append, Describes, Touch, Flush, BlockEnsure, Allocate, Coherent, AfterAppend, SameLife;
    DescribesBounds(s.header.files[f], j, f);
    match op
    case AppendTo(g, data) =>
      LiveStep(s, j, op);
      LiveBlock(Do(s, op).fs, Follow(s, j, op));
      AppendLater(s, j, g, data, f);
    case _ => StepLife(s, j, op, f);
  }

  lemma {:induction false} RunGrows(s: Fs, ops: seq<Op>, n: nat, f: nat)
    requires Live(s, EMPTY_JOURNAL) && AllLegal(ops) && Orderly(s, ops) && n <= |ops| && f < 4
    requires forall i :: n <= i < |ops| ==> !Cuts(ops[i], f)
    ensures AllLegal(ops[..n])
    ensures Grows(Record(s, ops[..n]).log, Record(s, ops).log)
    ensures SameLife(Run(s, ops[..n]).header.files[f], Run(s, ops).header.files[f])
    ensures Later(Run(s, ops[..n]).header.files[f], Record(s, ops[..n]), Run(s, ops).header.files[f], Record(s, ops), f)
    decreases |ops|
  {
    hide Live, Do, Follow, Taken, CutsInBlock;
    if n == |ops| {
      assert ops[..n] == ops;
    } else {
      OrderlyFront(s, ops);
      var front, op := ops[..|ops| - 1], ops[|ops| - 1];
      assert front[..n] == ops[..n];
      RunGrows(s, front, n, f);
      RunIsLive(s, front);
      StepLife(Run(s, front), Record(s, front), op, f);
      StepLater(Run(s, front), Record(s, front), op, f);
      FollowGrows(Run(s, front), Record(s, front), op);
      GrowsOn(Record(s, ops[..n]).log, Record(s, front).log, Record(s, ops).log);
    }
  }

  lemma GrowsOn(a: Log, b: Log, c: Log)
    requires |a| > 0 && |b| > 0 && Grows(a, b) && Grows(b, c)
    ensures Grows(a, c)
  {
  }

  lemma {:induction false} UptoThenAhead(log: Log, i: nat, e: nat, m: nat, d: nat, n: nat, f: nat, v: u16)
    requires i <= e <= d < |log| && m <= |log[e]| && n <= |log[d]| && (e == d ==> m <= n)
    ensures Upto(log, i, d, n, f, v) == Upto(log, i, e, m, f, v) + Ahead(log, e, m, d, n, f, v)
    decreases d
  {
    hide Pick;
    if e == d {
      PickSplits(log[e], 8000 + e, 0, m, n, f, v);
    } else if e + 1 == d {
      UptoThenAhead(log, i, e, m, e, |log[e]|, f, v);
    } else {
      UptoThenAhead(log, i, e, m, d - 1, |log[d - 1]|, f, v);
    }
  }

  /** The hits of file `f` beyond record `m` of block `e`. */
  ghost function Beyond(j: Journal, file: FileHeader, f: nat, e: nat, m: nat): seq<Hit>
    requires f < 4 && e < |j.log| && m <= |j.log[e]| && 8000 + e <= file.endBlock < 8000 + |j.log|
    requires j.ends[f] <= |j.log[file.endBlock - 8000]| && (8000 + e == file.endBlock ==> m <= j.ends[f])
  {
    Ahead(j.log, e, m, file.endBlock - 8000, j.ends[f], f, file.version)
  }

  /** What the later volume holds beyond the earlier end of a file. */
  lemma NewHits(f1: FileHeader, j1: Journal, f2: FileHeader, j2: Journal, f: nat, e: nat, m: nat)
    requires f < 4 && Describes(f1, j1, f) && Describes(f2, j2, f) && Grows(j1.log, j2.log) && SameLife(f1, f2)
    requires 8000 + e == f1.endBlock && m == j1.ends[f] && e < |j2.log| && m <= |j2.log[e]|
    requires 8000 + e <= f2.endBlock < 8000 + |j2.log| && j2.ends[f] <= |j2.log[f2.endBlock - 8000]|
    requires 8000 + e == f2.endBlock ==> m <= j2.ends[f]
    ensures j2.contents[f] == j1.contents[f] + Data(Beyond(j2, f2, f, e, m))
  {
    hide Upto, Encode, Off, Lag, Ahead, Data;
    var i, v := f1.startBlock - 8000, f1.version;
    var e2, m2 := f2.endBlock - 8000, j2.ends[f];
    assert j1.log[e] <= j2.log[e];
    assert j1.log[e][..m] == j2.log[e][..m];
    UptoSame(j1.log, j2.log, i, e, m, f, v);
    UptoThenAhead(j2.log, i, e, m, e2, m2, f, v);
    DataAdds(Upto(j1.log, i, e, m, f, v), Ahead(j2.log, e, m, e2, m2, f, v));
  }

  /** Scanning on from record `m` of block `e`. */
  lemma ReadsBeyond(versions: seq<u16>, blocks: Blocks, j: Journal, file: FileHeader, f: nat, e: nat, m: nat, t: Token)
    requires |versions| == 4 && Carried(blocks, j) && f < 4 && versions[f] == file.version
    requires e < |j.log| && m <= |j.log[e]| && 8000 + e <= file.endBlock < 8000 + |j.log|
    requires j.ends[f] <= |j.log[file.endBlock - 8000]| && (8000 + e == file.endBlock ==> m <= j.ends[f])
    requires t.file == f && t.block == 8000 + e && t.offset == Off(j.log[e], m)
    requires t.lastBlock == file.endBlock && t.lastOffset == Off(j.log[file.endBlock - 8000], j.ends[f])
    ensures InRange(blocks, t) && Remaining(versions, blocks, t) == Beyond(j, file, f, e, m)
  {
    hide Upto, Encode, Off, Remaining, Final, Full, Holds, Pick;
    CarriedUpto(blocks, j.log, file.endBlock - 8000, j.ends[f]);
    ScanFinds(versions, blocks, t, j.log, e, m, file.endBlock - 8000, j.ends[f]);
  }

  /** Two live states of one file, the later without a truncation in between:
      a token left at the earlier end reads exactly what was added. */
  lemma ReopenReadsNew(s: Fs, j: Journal, t: Fs, k: Journal, f: nat)
    requires Live(s, j) && Live(t, k) && f < 4 && Grows(j.log, k.log)
    requires SameLife(s.header.files[f], t.header.files[f])
    requires Later(s.header.files[f], j, t.header.files[f], k, f)
    requires t.header.files[f].size >= s.header.files[f].size
    ensures var again := Reopen(t.header, MoveEnd(CreateToken(s.header, f)));
            InRange(ViewBlocks(t), again)
            && j.contents[f] + Data(Remaining(Versions(t.header), ViewBlocks(t), again)) == k.contents[f]
  {
    hide Live, Describes, Carried, ViewBlocks, Remaining, Data, Off, Beyond;
    LiveIsCoherent(t, k);
    var f1, f2 := s.header.files[f], t.header.files[f];
    LiveDescribes(s, j, f);
    LiveDescribes(t, k, f);
    DescribesBounds(f1, j, f);
    DescribesBounds(f2, k, f);
    var e, m := f1.endBlock - 8000, j.ends[f];
    LiveCarried(t, k);
    assert j.log[e] <= k.log[e];
    SameOff(j.log[e], k.log[e], m);
    NewHits(f1, j, f2, k, f, e, m);
    ReadsBeyond(Versions(t.header), ViewBlocks(t), k, f2, f, e, m, Reopen(t.header, MoveEnd(CreateToken(s.header, f))));
  }

  lemma SameOff(a: seq<Rec>, b: seq<Rec>, m: nat)
    requires m <= |a| && a <= b
    ensures Off(a, m) == Off(b, m)
  {
    assert a[..m] == b[..m];
  }

  /** Incremental reading over whole runs. Read file `f` to its end after the
      first `n` operations, go on without truncating it, and reopen the saved
      token: the scan returns exactly the payloads taken since, unless the
      32-bit size has wrapped below the saved one, in which case it starts over. */
  lemma IncrementalRead(boot: Fs, wipe: bool, draws: seq<u16>, ops: seq<Op>, n: nat, f: nat)
    requires Started(boot, wipe, draws, ops) && n <= |ops| && f < 4 && AllLegal(ops[..n])
    requires forall i :: n <= i < |ops| ==> !Cuts(ops[i], f)
    ensures var s := Initialize(boot, wipe, draws).fs;
            var t1, t2 := Run(s, ops[..n]), Run(s, ops);
            var saved := MoveEnd(CreateToken(t1.header, f));
            var again := Reopen(t2.header, saved);
            && Ring(t1) && InRange(ViewBlocks(t1), CreateToken(t1.header, f))
            && Final(Versions(t1.header), ViewBlocks(t1), CreateToken(t1.header, f)) == saved
            && Ring(t2) && InRange(ViewBlocks(t2), again)
            && var read := Data(Remaining(Versions(t2.header), ViewBlocks(t2), again));
            if t2.header.files[f].size >= t1.header.files[f].size then
              Taken(s, ops[..n], f) + read == Taken(s, ops, f) && again.size == t2.header.files[f].size
            else read == Taken(s, ops, f) && again == CreateToken(t2.header, f)
  {
    hide Run, Initialize, Taken, Record, CutsInBlock, Live, Remaining, Final, ViewBlocks, Data, Grows, Later;
    hide SameLife, Enabled;
    StartIsLive(boot, wipe, draws);
    var s := Initialize(boot, wipe, draws).fs;
    OrderlyPrefix(s, ops, n);
    RunIsLive(s, ops);
    RunIsLive(s, ops[..n]);
    RunGrows(s, ops, n, f);
    var t1, t2 := Run(s, ops[..n]), Run(s, ops);
    LiveIsCoherent(t1, Record(s, ops[..n]));
    LiveIsCoherent(t2, Record(s, ops));
    LiveReads(t1, Record(s, ops[..n]), f);
    if t2.header.files[f].size >= t1.header.files[f].size {
      ReopenReadsNew(t1, Record(s, ops[..n]), t2, Record(s, ops), f);
    } else {
      LiveReads(t2, Record(s, ops), f);
    }
  }

  lemma OrderlyPrefix(s: Fs, ops: seq<Op>, n: nat)
    requires AllLegal(ops) && Orderly(s, ops) && n <= |ops| && AllLegal(ops[..n])
    ensures Orderly(s, ops[..n])
  {
    hide Enabled;
    forall i | 0 <= i < n
      ensures Enabled(s, ops[..n][..i], ops[..n][i])
    {
      assert ops[..n][i] == ops[i] && ops[..n][..i] == ops[..i];
    }
  }

  /** A file that has shrunk below a token's size is read again from its start. */
  lemma ReopenRestarts(boot: Fs, wipe: bool, draws: seq<u16>, ops: seq<Op>, saved: Token)
    requires Started(boot, wipe, draws, ops) && saved.file < 4
    requires Run(Initialize(boot, wipe, draws).fs, ops).header.files[saved.file].size < saved.size
    ensures var s := Initialize(boot, wipe, draws).fs;
            var t := Run(s, ops);
            var again := Reopen(t.header, saved);
            Ring(t) && InRange(ViewBlocks(t), again)
            && Data(Remaining(Versions(t.header), ViewBlocks(t), again)) == Taken(s, ops, saved.file)
  {
    hide Run, Initialize, Taken, Remaining, ViewBlocks, Data, Started;
    ReadBack(boot, wipe, draws, ops, saved.file);
  }

  /** Resuming is the same where a file has shrunk; otherwise it goes on from
      the very token that was saved, to the end it had then. */
  lemma ResumeRestarts(boot: Fs, wipe: bool, draws: seq<u16>, ops: seq<Op>, saved: Token)
    requires Started(boot, wipe, draws, ops) && saved.file < 4
    ensures var s := Initialize(boot, wipe, draws).fs;
            var t := Run(s, ops);
            var again := Resume(t.header, saved);
            if t.header.files[saved.file].size < saved.size then
              Ring(t) && InRange(ViewBlocks(t), again)
              && Data(Remaining(Versions(t.header), ViewBlocks(t), again)) == Taken(s, ops, saved.file)
            else again == saved
  {
    hide Run, Initialize, Taken, Remaining, ViewBlocks, Data, Started;
    ReadBack(boot, wipe, draws, ops, saved.file);
  }

  // ----- truncated in between -----

  /** How often file `f` is truncated in a run. */
  function CutTotal(ops: seq<Op>, f: nat): nat {
    if |ops| == 0 then 0 else CutTotal(ops[..|ops| - 1], f) + if Cuts(ops[|ops| - 1], f) then 1 else 0
  }

  /** Every record of file `f` is at most `n` versions old. */
  ghost predicate Aged(log: Log, f: nat, v: u16, n: nat) {
    forall i :: 0 <= i < |log| ==> Recent(v, log[i], f, n)
  }

  lemma AgedAdded(j: Journal, r: Rec, f: nat, v: u16, n: nat)
    requires Aged(j.log, f, v, n) && (r.file == f ==> r.version == v)
    ensures Aged(Added(j, r).log, f, v, n)
  {
    assert Recent(v, j.log[Top(j.log)], f, n);
  }

  lemma AgedAppend(s: Fs, j: Journal, g: nat, data: seq<byte>, f: nat, n: nat)
    requires g < 4 && f < 4 && |data| <= 65528 && Aged(j.log, f, s.header.files[f].version, n)
    ensures Aged(AfterAppend(s, j, g, data).log, f, s.header.files[f].version, n)
  {
    hide Allocate, Lag;
    if Admitted(|data|) {
      var a := Allocate(s, g, ENTRY_SIZE + |data|);
      var k := Reached(j, s.header.block, a.fs.header.block);
      if a.ok { AgedAdded(k, NewRec(s, g, data), f, s.header.files[f].version, n); }
    }
  }

  lemma AgedCut(log: Log, f: nat, v: u16, n: nat)
    requires Aged(log, f, v, n) && n < 0xFFFF
    ensures Aged(log, f, Inc16(v), n + 1)
    ensures AllStale(log, f, Inc16(v))
  {
    hide Recent, Inc16;
    forall i | 0 <= i < |log|
      ensures Recent(Inc16(v), log[i], f, n + 1) && NoneOf(log[i], f, Inc16(v))
    {
      CutRecent(v, log[i], f, n);
    }
  }

  /** No record of file `f` has version `v`. */
  ghost predicate NoneOf(rs: seq<Rec>, f: nat, v: u16) {
    forall k :: 0 <= k < |rs| && rs[k].file == f ==> rs[k].version != v
  }

  ghost predicate AllStale(log: Log, f: nat, v: u16) {
    forall i :: 0 <= i < |log| ==> NoneOf(log[i], f, v)
  }

  lemma {:induction false} UptoNone(log: Log, e: nat, m: nat, f: nat, v: u16)
    requires e < |log| && m <= |log[e]| && AllStale(log, f, v)
    ensures Upto(log, 0, e, m, f, v) == []
    decreases e
  {
    hide Pick;
    assert NoneOf(log[e], f, v);
    PickNone(log[e], 8000 + e, m, f, v);
    if e > 0 { UptoNone(log, e - 1, |log[e - 1]|, f, v); }
  }

  /** What a truncation does to the version. */
  lemma CutVersion(s: Fs, op: Op, f: nat)
    requires Legal(op) && f < 4 && Cuts(op, f)
    ensures Do(s, op).fs.header.files[f].version == Inc16(s.header.files[f].version)
    ensures Do(s, op).fs.header.files[f].startBlock == s.header.block
  {
    hide Inc16;
  }

  lemma CutLog(s: Fs, j: Journal, op: Op, f: nat)
    requires Legal(op) && f < 4 && Cuts(op, f)
    ensures Follow(s, j, op).log == j.log
  {
  }

  lemma {:induction false} RunAged(s: Fs, ops: seq<Op>, f: nat)
    requires Live(s, EMPTY_JOURNAL) && AllLegal(ops) && Orderly(s, ops) && f < 4 && CutTotal(ops, f) <= 0xFFFF
    ensures Aged(Record(s, ops).log, f, Run(s, ops).header.files[f].version, CutTotal(ops, f))
    decreases |ops|
  {
    hide Live, Do, Follow, Aged, Taken, CutsInBlock;
    if |ops| == 0 {
      NoneAged(f, s.header.files[f].version);
    } else {
      OrderlyFront(s, ops);
      var front, op := ops[..|ops| - 1], ops[|ops| - 1];
      RunAged(s, front, f);
      RunIsLive(s, front);
      AgedStep(Run(s, front), Record(s, front), op, f, CutTotal(front, f));
    }
  }

  lemma NoneAged(f: nat, v: u16)
    ensures Aged(EMPTY_JOURNAL.log, f, v, 0)
  {
  }

  lemma AgedStep(s: Fs, j: Journal, op: Op, f: nat, n: nat)
    requires Legal(op) && Live(s, j) && Ready(s, j, op) && f < 4
    requires Aged(j.log, f, s.header.files[f].version, n) && (Cuts(op, f) ==> n < 0xFFFF)
    ensures Aged(Follow(s, j, op).log, f, Do(s, op).fs.header.files[f].version, if Cuts(op, f) then n + 1 else n)
  {
    hide Live, Do, Aged, AfterAppend, Ready, CutAll, Cut;
    if Cuts(op, f) {
      CutVersion(s, op, f);
      CutLog(s, j, op, f);
      AgedCut(j.log, f, s.header.files[f].version, n);
    } else {
      StepLife(s, j, op, f);
      if op.AppendTo? { AgedAppend(s, j, op.file, op.data, f, n); } else { QuietLog(s, j, op); }
    }
  }

  lemma QuietLog(s: Fs, j: Journal, op: Op)
    requires Legal(op) && !op.AppendTo?
    ensures Follow(s, j, op).log == j.log
  {
  }

  lemma {:induction false} RunLogGrows(s: Fs, ops: seq<Op>, n: nat)
    requires AllLegal(ops) && n <= |ops|
    ensures AllLegal(ops[..n]) && Grows(Record(s, ops[..n]).log, Record(s, ops).log)
    decreases |ops|
  {
    hide Follow, Run;
    if n == |ops| {
      assert ops[..n] == ops;
    } else {
      var front := ops[..|ops| - 1];
      assert front[..n] == ops[..n];
      RunLogGrows(s, front, n);
      FollowGrows(Run(s, front), Record(s, front), ops[|ops| - 1]);
      GrowsOn(Record(s, ops[..n]).log, Record(s, front).log, Record(s, ops).log);
    }
  }

  /** The last truncation of file `f` in the run is its `c`-th operation: no
      record older than that has the file's present version. */
  lemma OlderRecordsStale(s: Fs, ops: seq<Op>, c: nat, f: nat)
    requires Live(s, EMPTY_JOURNAL) && AllLegal(ops) && Orderly(s, ops) && c < |ops| && f < 4
             && CutTotal(ops, f) <= 0xFFFF
    requires Cuts(ops[c], f) && forall i :: c < i < |ops| ==> !Cuts(ops[i], f)
    ensures AllLegal(ops[..c + 1])
    ensures AllStale(Record(s, ops[..c + 1]).log, f, Run(s, ops).header.files[f].version)
    ensures Run(s, ops).header.files[f].startBlock == 8000 + Top(Record(s, ops[..c + 1]).log)
    ensures Grows(Record(s, ops[..c + 1]).log, Record(s, ops).log)
  {
    hide Live, Do, Follow, Aged, Taken, CutsInBlock, Enabled, AllStale;
    var now, front := ops[..c + 1], ops[..c];
    assert now[..|now| - 1] == front && now[|now| - 1] == ops[c];
    CutsOfPrefix(ops, c, f);
    OrderlyPrefix(s, ops, c);
    RunAged(s, front, f);
    RunIsLive(s, front);
    LiveBlock(Run(s, front), Record(s, front));
    CutVersion(Run(s, front), ops[c], f);
    CutLog(Run(s, front), Record(s, front), ops[c], f);
    AgedCut(Record(s, front).log, f, Run(s, front).header.files[f].version, CutTotal(front, f));
    RunGrows(s, ops, c + 1, f);
  }

  lemma {:induction false} CutsOfPrefix(ops: seq<Op>, c: nat, f: nat)
    requires c < |ops| && Cuts(ops[c], f)
    ensures CutTotal(ops[..c], f) < CutTotal(ops, f)
    decreases |ops|
  {
    var front := ops[..|ops| - 1];
    if c < |front| {
      assert front[..c] == ops[..c];
      CutsOfPrefix(front, c, f);
    }
  }

  /** Two live states of one file, between which it was truncated: a token left
      at the earlier end reads exactly the file's present contents. */
  lemma ReopenReadsAll(s: Fs, j: Journal, t: Fs, k: Journal, cut: Log, f: nat)
    requires Live(s, j) && Live(t, k) && f < 4 && |cut| > 0 && Grows(j.log, cut) && Grows(cut, k.log)
    requires AllStale(cut, f, t.header.files[f].version)
    requires t.header.files[f].startBlock == 8000 + Top(cut) && t.header.files[f].size >= s.header.files[f].size
    ensures var again := Reopen(t.header, MoveEnd(CreateToken(s.header, f)));
            InRange(ViewBlocks(t), again)
            && Data(Remaining(Versions(t.header), ViewBlocks(t), again)) == k.contents[f]
  {
    hide Live, Describes, Carried, ViewBlocks, Remaining, Data, Off, AllStale, Grows, Upto, Ahead;
    LiveIsCoherent(t, k);
    LiveBlock(t, k);
    var f1, f2 := s.header.files[f], t.header.files[f];
    LiveDescribes(s, j, f);
    LiveDescribes(t, k, f);
    DescribesBounds(f1, j, f);
    DescribesBounds(f2, k, f);
    LiveCarried(t, k);
    var e, m, e2, m2 := f1.endBlock - 8000, j.ends[f], f2.endBlock - 8000, k.ends[f];
    EarlierPlace(j.log, cut, k.log, e, m);
    var again := Reopen(t.header, MoveEnd(CreateToken(s.header, f)));
    StaleBefore(cut, k.log, e, m, f2.version, f);
    AllFromCut(f2, k, cut, f);
    if e == e2 && m2 < m {
      OffMonotone(k.log[e], m2, m);
      DoneIsEmpty(Versions(t.header), ViewBlocks(t), again);
      UptoThenAhead(k.log, 0, e, m2, e, m, f, f2.version);
      NoData();
    } else {
      ReadsBeyond(Versions(t.header), ViewBlocks(t), k, f2, f, e, m, again);
      UptoThenAhead(k.log, 0, e, m, e2, m2, f, f2.version);
      assert [] + Beyond(k, f2, f, e, m) == Beyond(k, f2, f, e, m);
    }
  }

  /** A place in an earlier log is the same place in a later one. */
  lemma EarlierPlace(a: Log, b: Log, c: Log, e: nat, m: nat)
    requires |a| > 0 && |b| > 0 && Grows(a, b) && Grows(b, c) && e < |a| && m <= |a[e]|
    ensures e <= Top(b) && m <= |b[e]| && e < |c| && m <= |c[e]| && Off(a[e], m) == Off(c[e], m)
  {
    GrowsOn(a, b, c);
    assert a[e] <= c[e] && a[e] <= b[e];
    SameOff(a[e], c[e], m);
  }

  /** Nothing of version `v` lies before a place of the log that was there at the cut. */
  lemma StaleBefore(cut: Log, log: Log, e: nat, m: nat, v: u16, f: nat)
    requires |cut| > 0 && Grows(cut, log) && e < |cut| && m <= |cut[e]|
    requires AllStale(cut, f, v)
    ensures e < |log| && m <= |log[e]| && Upto(log, 0, e, m, f, v) == []
  {
    hide Upto, AllStale;
    UptoNone(cut, e, m, f, v);
    assert cut[e] <= log[e];
    assert cut[e][..m] == log[e][..m];
    UptoSame(cut, log, 0, e, m, f, v);
  }

  /** A file cut at the end of `cut` has its present contents from the log's very start on. */
  lemma AllFromCut(file: FileHeader, k: Journal, cut: Log, f: nat)
    requires f < 4 && Describes(file, k, f) && Bounded(file, k, f) && |cut| > 0 && Grows(cut, k.log)
    requires file.startBlock == 8000 + Top(cut) && AllStale(cut, f, file.version)
    ensures Data(Upto(k.log, 0, file.endBlock - 8000, k.ends[f], f, file.version)) == k.contents[f]
  {
    hide Describes, Upto, AllStale, Off, Data;
    DescribedContents(file, k, f);
    var top := Top(cut);
    if top > 0 {
      assert k.log[top - 1] == cut[top - 1];
      StaleBefore(cut, k.log, top - 1, |cut[top - 1]|, file.version, f);
      UptoSplits(k.log, 0, top, file.endBlock - 8000, k.ends[f], f, file.version);
      assert [] + HitsFrom(file, k, f, top) == HitsFrom(file, k, f, top);
    }
  }

  /** Reading on after a truncation. Read file `f` to its end after the first `n`
      operations, go on and truncate it, at most 65535 times in all, and reopen
      the saved token: whether it restarts or not, the scan returns exactly what
      the file holds now. */
  lemma IncrementalAfterCut(boot: Fs, wipe: bool, draws: seq<u16>, ops: seq<Op>, n: nat, c: nat, f: nat)
    requires Started(boot, wipe, draws, ops) && n <= c < |ops| && f < 4 && AllLegal(ops[..n])
             && CutTotal(ops, f) <= 0xFFFF
    requires Cuts(ops[c], f) && forall i :: c < i < |ops| ==> !Cuts(ops[i], f)
    ensures var s := Initialize(boot, wipe, draws).fs;
            var t1, t2 := Run(s, ops[..n]), Run(s, ops);
            var again := Reopen(t2.header, MoveEnd(CreateToken(t1.header, f)));
            && Ring(t2) && InRange(ViewBlocks(t2), again)
            && Data(Remaining(Versions(t2.header), ViewBlocks(t2), again)) == Taken(s, ops, f)
  {
    hide Run, Initialize, Taken, Record, CutsInBlock, Live, Remaining, Final, ViewBlocks, Data, Grows;
    hide Enabled, AllStale, CutTotal;
    StartIsLive(boot, wipe, draws);
    var s := Initialize(boot, wipe, draws).fs;
    OrderlyPrefix(s, ops, n);
    RunIsLive(s, ops);
    RunIsLive(s, ops[..n]);
    var t1, t2 := Run(s, ops[..n]), Run(s, ops);
    LiveIsCoherent(t2, Record(s, ops));
    if t2.header.files[f].size >= t1.header.files[f].size {
      OlderRecordsStale(s, ops, c, f);
      RunLogGrows(s, ops[..c + 1], n);
      assert ops[..c + 1][..n] == ops[..n];
      ReopenReadsAll(t1, Record(s, ops[..n]), t2, Record(s, ops), Record(s, ops[..c + 1]).log, f);
    } else {
      LiveReads(t2, Record(s, ops), f);
    }
  }
}
