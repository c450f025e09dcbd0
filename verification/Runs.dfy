/** Whole runs: any sequence of operations after starting on a blank card, with
    any device faults along the way. */
module Runs {
  import opened Bytes
  import Crc
  import opened Header
  import opened Card
  import opened Fs
  import opened Cache
  import opened HeaderProtocol
  import opened Layout
  import opened Scan
  import opened Journal
  import opened LiveVolume

  /** `Load` is the cache's part of any read. */
  datatype Op =
    | AppendTo(file: nat, data: seq<byte>)
    | TruncateFile(file: nat)
    | TruncateEvery
    | TouchAt(time: u32)
    | FlushAt(time: u32)
    | Load(block: u32)

  predicate Legal(op: Op) {
    match op
    case AppendTo(f, data) => f < 4 && |data| <= 65528
    case TruncateFile(f) => f < 4
    case _ => true
  }

  function Do(s: Fs, op: Op): Outcome
    requires Legal(op)
  {
    match op
    case AppendTo(f, data) => Append(s, f, data)
    case TruncateFile(f) => Outcome(Truncate(s, f), true)
    case TruncateEvery => Outcome(TruncateAll(s), true)
    case TouchAt(time) => Touch(s, time)
    case FlushAt(time) => Flush(s, time)
    case Load(block) => BlockEnsure(s, block)
  }

  lemma DoesTouch(s: Fs, time: u32)
    ensures Do(s, TouchAt(time)) == Touch(s, time) && Do(s, FlushAt(time)) == Flush(s, time)
  {
    hide Touch, Flush;
  }

  predicate AllLegal(ops: seq<Op>) {
    forall i :: 0 <= i < |ops| ==> Legal(ops[i])
  }

  /** The state after a run; failed operations are simply followed by the next. */
  ghost function Run(s: Fs, ops: seq<Op>): Fs
    requires AllLegal(ops)
  {
    if |ops| == 0 then s else Do(Run(s, ops[..|ops| - 1]), ops[|ops| - 1]).fs
  }

  // ----- what the caller can observe of a run -----

  predicate Cuts(op: Op, f: nat) {
    op == TruncateFile(f) || op == TruncateEvery
  }

  /** The payloads file `f` took since its last truncation. */
  ghost function Taken(s: Fs, ops: seq<Op>, f: nat): Payloads
    requires AllLegal(ops)
  {
    if |ops| == 0 then []
    else
      var front, op := ops[..|ops| - 1], ops[|ops| - 1];
      if Cuts(op, f) then []
      else if op.AppendTo? && op.file == f && Took(Run(s, front), f, op.data) then Taken(s, front, f) + [op.data]
      else Taken(s, front, f)
  }

  /** How often file `f` was truncated since the log last moved to a new block. */
  ghost function CutsInBlock(s: Fs, ops: seq<Op>, f: nat): nat
    requires AllLegal(ops)
  {
    if |ops| == 0 then 0
    else
      var front, op := ops[..|ops| - 1], ops[|ops| - 1];
      if Run(s, ops).header.block != Run(s, front).header.block then 0
      else CutsInBlock(s, front, f) + if Cuts(op, f) then 1 else 0
  }

  /** The hypotheses on one step: the log has not reached the end of the ring,
      versions have not gone all the way round, reads happen on a settled cache. */
  ghost predicate Enabled(s: Fs, ops: seq<Op>, op: Op)
    requires AllLegal(ops) && Legal(op)
  {
    var t := Run(s, ops);
    match op
    case AppendTo(_, _) => Roomy(t)
    case TruncateFile(f) => CutsInBlock(s, ops, f) < 0xFFFF
    case TruncateEvery => forall f :: 0 <= f < 4 ==> CutsInBlock(s, ops, f) < 0xFFFF
    case Load(block) => !t.dirty || t.cached == block
    case _ => true
  }

  ghost predicate Orderly(s: Fs, ops: seq<Op>)
    requires AllLegal(ops)
  {
    forall i {:trigger ops[i]} :: 0 <= i < |ops| ==> Enabled(s, ops[..i], ops[i])
  }

  lemma OrderlyFront(s: Fs, ops: seq<Op>)
    requires |ops| > 0 && AllLegal(ops) && Orderly(s, ops)
    ensures AllLegal(ops[..|ops| - 1]) && Orderly(s, ops[..|ops| - 1])
    ensures Enabled(s, ops[..|ops| - 1], ops[|ops| - 1])
  {
    hide Enabled;
    var front := ops[..|ops| - 1];
    forall i | 0 <= i < |front|
      ensures Enabled(s, front[..i], front[i])
    {
      assert front[i] == ops[i] && front[..i] == ops[..i];
    }
  }

  // ----- one step -----

  /** The journal after one operation. */
  ghost function Follow(s: Fs, j: Journal, op: Op): Journal
    requires Legal(op)
  {
    match op
    case AppendTo(f, data) => AfterAppend(s, j, f, data)
    case TruncateFile(f) => Cut(j, f)
    case TruncateEvery => CutAll(j)
    case _ => j
  }

  /** What the step needs, in terms of the journal. */
  ghost predicate Ready(s: Fs, j: Journal, op: Op)
    requires Legal(op)
  {
    match op
    case AppendTo(_, _) => Roomy(s)
    case TruncateFile(f) => j.bumps[f] < 0xFFFF
    case TruncateEvery => forall f :: 0 <= f < 4 ==> j.bumps[f] < 0xFFFF
    case Load(block) => !s.dirty || s.cached == block
    case _ => true
  }

  lemma LiveStep(s: Fs, j: Journal, op: Op)
    requires Legal(op) && Live(s, j) && Ready(s, j, op)
    ensures Live(Do(s, op).fs, Follow(s, j, op))
  {
    hide Live, Append, Truncate, TruncateAll, Touch, Flush, BlockEnsure, AfterAppend, CutAll;
    match op
    case AppendTo(f, data) => LiveAppend(s, j, f, data);
    case TruncateFile(f) => LiveTruncate(s, j, f);
    case TruncateEvery => LiveTruncateAll(s, j);
    case TouchAt(time) => LiveTouch(s, j, time);
    case FlushAt(time) => LiveFlush(s, j, time);
    case Load(block) => LiveEnsure(s, j, block);
  }

  /** The step's effect on the contents and counters of one file. */
  lemma FollowEffect(s: Fs, j: Journal, op: Op, f: nat)
    requires Legal(op) && Live(s, j) && Ready(s, j, op) && f < 4
    ensures var k := Follow(s, j, op);
            && k.contents[f] == (if Cuts(op, f) then []
                                 else if op.AppendTo? && op.file == f
                                     && Took(s, f, op.data) then j.contents[f] + [op.data]
                                 else j.contents[f])
            && k.bumps[f] == (if Do(s, op).fs.header.block != s.header.block then 0
                              else j.bumps[f] + if Cuts(op, f) then 1 else 0)
  {
    hide Live, Append, Allocate, Fsync, BlockEnsure, HeaderWrite;
    StepBlock(s, j, op);
    match op
    case AppendTo(g, data) => LiveAppend(s, j, g, data); AppendBumps(s, j, g, data, f);
    case _ =>
  }

  lemma AppendBumps(s: Fs, j: Journal, g: nat, data: seq<byte>, f: nat)
    requires f < 4 && g < 4 && |data| <= 65528
    ensures var k := AfterAppend(s, j, g, data);
            k.bumps[f] == if |k.log| == |j.log| then j.bumps[f] else 0
  {
    hide Allocate;
  }

  /** Only an append moves the header's block. */
  lemma StepBlock(s: Fs, j: Journal, op: Op)
    requires Legal(op) && Live(s, j) && Ready(s, j, op)
    ensures !op.AppendTo? ==> Do(s, op).fs.header.block == s.header.block
  {
    hide Fsync, HeaderWrite, Tracks, Full, Append;
    match op
    case TouchAt(time) => HeaderWriteKeeps(s.(header := s.header.(time := time)), false);
    case FlushAt(time) =>
      HeaderWriteKeeps(s.(header := s.header.(time := time)), false);
      FsyncKeeps(Touch(s, time).fs);
    case _ =>
  }

  // ----- starting -----

  const EMPTY_JOURNAL: Journal := Journal([[]], [0, 0, 0, 0], [[], [], [], []], [0, 0, 0, 0])

  /** The data region of the card is zero. */
  ghost predicate Blank(blocks: Blocks) {
    |blocks| >= 8003 && forall b :: 8000 <= b < |blocks| ==> blocks[b] == ZERO_BLOCK
  }

  lemma EmptyDescribes(file: FileHeader, f: nat)
    requires f < 4 && file.startBlock == 8000 && file.startOffset == 0 && file.endBlock == 8000 && file.endOffset == 0
    requires file.size == 0
    ensures Describes(file, EMPTY_JOURNAL, f)
  {
  }

  /** A blank card is recognised as new, with or without being told to wipe. */
  lemma BlankIsNew(b: Block)
    requires b == ZERO_BLOCK
    ensures Newest(b) == 2
  {
    hide SlotValid, HeaderFrom;
    ZeroSlotInvalid();
    assert Slot(b, 0) == Zeros(137) && Slot(b, 1) == Zeros(137);
  }

  /** Starting on a blank card gives an empty live volume with its header stored. */
  lemma StartIsLive(s: Fs, wipe: bool, draws: seq<u16>)
    requires Pristine(s) && |draws| == 4 && Blank(s.card.blocks) && (wipe || s.card.blocks[0] == ZERO_BLOCK)
    requires Initialize(s, wipe, draws).ok
    ensures var t := Initialize(s, wipe, draws).fs;
            Live(t, EMPTY_JOURNAL) && Protocol(t) && Stored(t) == t.header && !t.dirty && t.settings == s.settings
            && t.header.generation == 1
  {
    hide Format, Newest, Protocol, Stored, HeaderBytes, Splice;
    if !wipe { BlankIsNew(s.card.blocks[0]); }
    var l := s.(numberOfBlocks := |s.card.blocks|, buffer := s.card.blocks[0], card := Spent(s.card));
    assert Initialize(s, wipe, draws) == Format(l, draws);
    FormatProtocol(l, draws);
    var t := Format(l, draws).fs;
    FormatKeeps(l, draws);
    FormatIsLive(l, draws, t);
  }

  lemma FormatKeeps(s: Fs, draws: seq<u16>)
    requires |draws| == 4 && Format(s, draws).ok
    ensures var t := Format(s, draws).fs;
            !t.dirty == !s.dirty && t.cached == s.cached && t.numberOfBlocks == s.numberOfBlocks
            && t.settings == s.settings && |t.card.blocks| == |s.card.blocks|
  {
    hide HeaderBytes, Splice, HeaderBody, Crc.Crc16;
  }

  lemma FormatIsLive(s: Fs, draws: seq<u16>, t: Fs)
    requires |draws| == 4 && Blank(s.card.blocks) && s.header.offset == 0
    requires t.header == FreshHeader(s.header, draws).(generation := 1, crc := t.header.crc)
    requires !t.dirty && t.cached == 0 && t.numberOfBlocks == |t.card.blocks| == |s.card.blocks|
    requires forall b :: 0 < b < |s.card.blocks| ==> t.card.blocks[b] == s.card.blocks[b]
    ensures Live(t, EMPTY_JOURNAL)
  {
    hide Describes;
    ZeroBlockFull();
    forall f | 0 <= f < 4
      ensures Describes(t.header.files[f], EMPTY_JOURNAL, f)
    {
      EmptyDescribes(t.header.files[f], f);
    }
    forall b | 8000 <= b < |t.card.blocks|
      ensures Full(View(t, b), Recs(EMPTY_JOURNAL.log, b))
    {
      assert Recs(EMPTY_JOURNAL.log, b) == [];
    }
  }

  // ----- whole runs -----

  /** The journal after a run. */
  ghost function Record(s: Fs, ops: seq<Op>): Journal
    requires AllLegal(ops)
  {
    if |ops| == 0 then EMPTY_JOURNAL
    else Follow(Run(s, ops[..|ops| - 1]), Record(s, ops[..|ops| - 1]), ops[|ops| - 1])
  }

  /** Along every orderly run the volume stays live, and its journal holds
      exactly what was taken. */
  lemma {:induction false} RunIsLive(s: Fs, ops: seq<Op>)
    requires Live(s, EMPTY_JOURNAL) && AllLegal(ops) && Orderly(s, ops)
    ensures Live(Run(s, ops), Record(s, ops))
    ensures forall f :: 0 <= f < 4 ==>
              Record(s, ops).contents[f] == Taken(s, ops, f) && Record(s, ops).bumps[f] == CutsInBlock(s, ops, f)
    decreases |ops|
  {
    hide Live, Do, Follow, Took;
    if |ops| > 0 {
      OrderlyFront(s, ops);
      var front, op := ops[..|ops| - 1], ops[|ops| - 1];
      RunIsLive(s, front);
      var t, k := Run(s, front), Record(s, front);
      assert Ready(t, k, op);
      LiveStep(t, k, op);
      forall f | 0 <= f < 4
        ensures Record(s, ops).contents[f] == Taken(s, ops, f) && Record(s, ops).bumps[f] == CutsInBlock(s, ops, f)
      {
        FollowEffect(t, k, op, f);
      }
    }
  }

  /** The starting hypotheses of the theorems about whole runs. */
  ghost predicate Started(boot: Fs, wipe: bool, draws: seq<u16>, ops: seq<Op>) {
    && Pristine(boot) && |draws| == 4 && Blank(boot.card.blocks) && (wipe || boot.card.blocks[0] == ZERO_BLOCK)
    && Initialize(boot, wipe, draws).ok && AllLegal(ops) && Orderly(Initialize(boot, wipe, draws).fs, ops)
  }

  /** Read-back. Start on a blank card, then run any appends, truncations,
      touches, flushes and reads over the four files, with any device faults:
      scanning a file returns exactly the payloads it took since it was last
      truncated, in order, and its recorded size is their total. */
  lemma ReadBack(boot: Fs, wipe: bool, draws: seq<u16>, ops: seq<Op>, f: nat)
    requires Started(boot, wipe, draws, ops) && f < 4
    ensures var s := Initialize(boot, wipe, draws).fs;
            var t := Run(s, ops);
            && Coherent(t) && Reads(t, f, Taken(s, ops, f))
            && t.header.files[f].size == Total(Taken(s, ops, f)) % 0x1_0000_0000
  {
    hide Run, Remaining, Initialize, Taken, Tracks, Full, Record, CutsInBlock;
    StartIsLive(boot, wipe, draws);
    var s := Initialize(boot, wipe, draws).fs;
    RunIsLive(s, ops);
    LiveReads(Run(s, ops), Record(s, ops), f);
  }

  // ----- invariants for every card content -----

  lemma AppendCoherent(s: Fs, f: nat, data: seq<byte>)
    requires Coherent(s) && f < 4 && |data| <= 65528
    ensures Coherent(Append(s, f, data).fs)
  {
    hide Append;
    AppendIsLocal(s, f, data);
  }

  lemma CoherentStep(s: Fs, op: Op)
    requires Legal(op) && Coherent(s)
    ensures Coherent(Do(s, op).fs)
  {
    hide Append, HeaderWrite, Fsync;
    match op
    case AppendTo(f, data) => AppendCoherent(s, f, data);
    case TouchAt(time) => HeaderWriteKeeps(s.(header := s.header.(time := time)), false);
    case FlushAt(time) =>
      HeaderWriteKeeps(s.(header := s.header.(time := time)), false);
      FsyncKeeps(Touch(s, time).fs);
    case _ =>
  }

  /** In every state reached from a coherent one, whatever the card holds, the
      ring having wrapped or not, and whatever the device does: the header's block
      is in the ring, a dirty buffer belongs to it, and a clean buffer equals its
      block on the card. */
  lemma {:induction false} CoherentRuns(s: Fs, ops: seq<Op>)
    requires Coherent(s) && AllLegal(ops)
    ensures Coherent(Run(s, ops))
  {
    hide Coherent, Do;
    if |ops| > 0 {
      CoherentRuns(s, ops[..|ops| - 1]);
      CoherentStep(Run(s, ops[..|ops| - 1]), ops[|ops| - 1]);
    }
  }

  lemma ProtocolStep(s: Fs, op: Op)
    requires Legal(op) && Coherent(s) && Protocol(s) && Working(s.card) && s.header.generation < MAX32 - 1
    ensures var t := Do(s, op).fs;
            Protocol(t) && Working(t.card) && t.header.generation <= s.header.generation + 2
  {
    hide Append, Touch, Flush, Coherent, Protocol;
    match op
    case AppendTo(f, data) => AppendHolds(s, f, data);
    case TouchAt(time) => TouchWorks(s, time); TouchProtocol(s, time);
    case FlushAt(time) => FlushHolds(s, time);
    case _ => ProtocolFrame(s, Do(s, op).fs);
  }

  /** Along every run of operations on a working device, bare touches included,
      the generation's parity names the current slot, that slot is valid and holds
      the strictly greatest generation; so starting up after the run trusts it. */
  lemma {:induction false} ProtocolRuns(s: Fs, ops: seq<Op>)
    requires Coherent(s) && Protocol(s) && Working(s.card) && AllLegal(ops)
    requires s.header.generation + 2 * |ops| < MAX32
    ensures var t := Run(s, ops);
            && Protocol(t) && Working(t.card) && t.header.generation <= s.header.generation + 2 * |ops|
            && Newest(t.card.blocks[0]) == t.headerIndex
  {
    if |ops| > 0 {
      var front := ops[..|ops| - 1];
      hide Coherent, Do, Protocol, Newest;
      CoherentRuns(s, front);
      ProtocolRuns(s, front);
      ProtocolStep(Run(s, front), ops[|ops| - 1]);
      ProtocolLeads(Run(s, ops));
    } else {
      ProtocolLeads(s);
    }
  }

  lemma ProtocolLeads(s: Fs)
    requires Protocol(s)
    ensures |s.card.blocks| > 0 && Newest(s.card.blocks[0]) == s.headerIndex
  {
    hide Newest, Leads;
    LeaderIsNewest(s.card.blocks[0], s.headerIndex, s.header.generation);
  }
}
