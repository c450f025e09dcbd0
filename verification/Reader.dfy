/** Iteration as the program does it: bounded, resumable calls that update an
    iterator in place, proved against the unlimited scan. */
module Reader {
  import opened Bytes
  import opened Header
  import opened Entry
  import opened Card
  import Fs
  import opened Cache
  import opened LiveVolume
  import opened Scan
  import opened FileSystem

  datatype Config = Config(maxBlocks: u32, maxTime: u32, manualNext: bool)

  class FileIter {
    var token: Token
    var data: seq<byte>
    var size: u16
    var iterated: u32

    /** An iterator at token `t`; the program leaves `iterated` to its caller. */
    constructor (t: Token)
      ensures token == t
    {
      token, data, size, iterated := t, [], 0, 0;
    }
  }

  /** The blocks as a scan from `t` comes to see them. Elsewhere than in the one
      dirty block the first read throws the buffer away. */
  ghost function Seen(s: Fs.Fs, t: Token): (v: Blocks)
    requires Ring(s)
    ensures |v| == |s.card.blocks|
  {
    if t.block == s.header.block then ViewBlocks(s) else s.card.blocks
  }

  /** No unsynced bytes are at stake: the cache is clean, or the scan stays in
      the one block that is dirty. */
  ghost predicate Settled(s: Fs.Fs, t: Token) {
    s.dirty ==> t.block == s.header.block && t.lastBlock <= s.header.block
  }

  /** Only the cache and the device's script differ; a dirty buffer is the same or gone. */
  ghost predicate OnlyCache(s: Fs.Fs, t: Fs.Fs) {
    && t.header == s.header && t.headerIndex == s.headerIndex && t.settings == s.settings
    && t.numberOfBlocks == s.numberOfBlocks && t.card.blocks == s.card.blocks
    && (t.dirty ==> s.dirty && t.buffer == s.buffer && t.cached == s.cached)
  }

  /** What a token has still to return. */
  ghost function Pending(s: Fs.Fs, t: Token): seq<Hit>
    requires Ring(s) && InRange(s.card.blocks, t)
  {
    Remaining(Versions(s.header), Seen(s, t), t)
  }

  /** Where the token will come to rest. */
  ghost function Resting(s: Fs.Fs, t: Token): Token
    requires Ring(s) && InRange(s.card.blocks, t)
  {
    Final(Versions(s.header), Seen(s, t), t)
  }

  /** The turn a token takes next. */
  ghost function NextTurn(s: Fs.Fs, t: Token): Turn
    requires Ring(s) && t.block < |s.card.blocks|
  {
    OneTurn(Versions(s.header), s.numberOfBlocks, Seen(s, t)[t.block], t)
  }

  lemma CoherentRing(s: Fs.Fs)
    requires Coherent(s)
    ensures Ring(s)
  {
  }

  /** On a settled cache a scan sees what the filesystem shows. */
  lemma SettledSees(s: Fs.Fs, t: Token)
    requires Ring(s) && (!s.dirty || t.block == s.header.block)
    ensures Seen(s, t) == ViewBlocks(s)
  {
  }

  /** Loading the token's block shows the scan what it was to see, and changes
      nothing of it; a dirty buffer is lost exactly if it belongs to another block. */
  lemma EnsureReads(s: Fs.Fs, t: Token)
    requires Coherent(s) && 0 < t.block < |s.card.blocks|
    ensures var o := Fs.BlockEnsure(s, t.block);
            && Coherent(o.fs) && OnlyCache(s, o.fs) && Ring(s) && Ring(o.fs) && Seen(o.fs, t) == Seen(s, t)
            && (o.ok ==> o.fs.buffer == Seen(s, t)[t.block] && o.fs.cached == t.block
                         && o.fs.dirty == (s.dirty && t.block == s.header.block))
            && (!o.ok ==> o.fs.dirty == s.dirty)
            && (Working(s.card) ==> o.ok && Working(o.fs.card))
  {
  }

  lemma PendingDone(s: Fs.Fs, t: Token)
    requires Ring(s) && InRange(s.card.blocks, t) && Done(t)
    ensures Pending(s, t) == [] && Resting(s, t) == t
  {
  }

  lemma PendingBlocks(s: Fs.Fs, t: Token)
    requires Ring(s) && InRange(s.card.blocks, t)
    ensures forall i :: 0 <= i < |Pending(s, t)| ==> t.block <= Pending(s, t)[i].block <= t.lastBlock
  {
    hide Remaining;
    HitsAreOrdered(Versions(s.header), Seen(s, t), t);
    forall i | 0 <= i < |Pending(s, t)|
      ensures t.block <= Pending(s, t)[i].block <= t.lastBlock
    {
      assert Within(Versions(s.header), Seen(s, t), t, Pending(s, t)[i]);
    }
  }

  /** `t` and `u` differ only in their position. */
  ghost predicate SameSpan(t: Token, u: Token) {
    u.file == t.file && u.lastBlock == t.lastBlock && u.lastOffset == t.lastOffset && u.size == t.size
  }

  /** A scan that goes on to `u` sees from there on what it would have seen from `t`. */
  lemma SeesOn(s: Fs.Fs, t: Token, u: Token)
    requires Ring(s) && InRange(s.card.blocks, u) && t.block <= u.block && (s.dirty ==> t.block == s.header.block)
    ensures Remaining(Versions(s.header), Seen(s, t), u) == Pending(s, u)
    ensures Final(Versions(s.header), Seen(s, t), u) == Resting(s, u)
  {
    hide Remaining, Final;
    ScanFrame(Versions(s.header), Seen(s, t), Seen(s, u), u);
  }

  /** One loop turn as the scan sees it, with what it leaves pending, once the
      token's block is loaded. */
  lemma TurnFacts(s: Fs.Fs, t: Token, r: Turn)
    requires Ring(s) && InRange(s.card.blocks, t) && !Done(t) && r == NextTurn(s, t)
    requires s.dirty ==> t.block == s.header.block
    ensures SameSpan(t, r.next) && InRange(s.card.blocks, r.next)
    ensures Before(t.block, t.offset, r.next.block, r.next.offset)
    ensures Pending(s, t) == (if r.Found? then [r.hit] else []) + Pending(s, r.next)
    ensures Resting(s, t) == Resting(s, r.next)
    ensures if r.Turned? then r.next.block == t.block + 1 && r.next.offset == 0 else r.next.block == t.block
    ensures r.Found? ==> r.hit.block == t.block
  {
    hide Check, EntryAt, TurnPage;
    TurnProgress(Versions(s.header), Seen(s, t), t);
    SeesOn(s, t, r.next);
  }

  datatype Step = Matched | Advanced | Paged | Broken

  /** The body of the loop: load the token's block and look at one entry. */
  method TakeTurn(fs: FileSystem, config: Config, iter: FileIter) returns (step: Step)
    requires fs.Valid() && Coherent(fs.State()) && 0 < iter.token.block < |fs.sd.blocks|
    modifies fs, fs.buffer, iter
    ensures Coherent(fs.State()) && OnlyCache(old(fs.State()), fs.State()) && Ring(fs.State())
    ensures Seen(fs.State(), old(iter.token)) == Seen(old(fs.State()), old(iter.token))
    ensures Working(old(fs.sd)) ==> Working(fs.sd) && !step.Broken?
    ensures step.Matched? ==>
              var r := NextTurn(fs.State(), old(iter.token));
              && r.Found? && r.hit.data == iter.data && iter.size == |iter.data|
              && iter.iterated == (old(iter.iterated) + iter.size) % 0x1_0000_0000
              && iter.token == if config.manualNext then old(iter.token) else r.next
    ensures step.Advanced? ==> NextTurn(fs.State(), old(iter.token)) == Skipped(iter.token)
    ensures step.Paged? ==> NextTurn(fs.State(), old(iter.token)) == Turned(iter.token)
    ensures step.Broken? ==> iter.token == old(iter.token) && fs.cachedBlockDirty == old(fs.cachedBlockDirty)
    ensures !step.Broken? ==>
              && fs.cachedBlockNumber == old(iter.token).block
              && fs.State().buffer == Seen(fs.State(), old(iter.token))[old(iter.token).block]
              && fs.cachedBlockDirty == (old(fs.cachedBlockDirty) && old(iter.token).block == fs.header.block)
    ensures !step.Matched? ==> iter.iterated == old(iter.iterated)
  {
    hide Check, EntryAt, Seen, TurnPage, Fs.BlockEnsure, Coherent;
    EnsureReads(fs.State(), iter.token);
    var ok := fs.BlockEnsure(iter.token.block);
    if !ok {
      return Broken;
    }
    var b: Block := fs.buffer[..];
    ghost var r := OneTurn(Versions(fs.header), fs.numberOfBlocks, b, iter.token);
    assert NextTurn(fs.State(), iter.token) == r;
    hide NextTurn;
    var check := Check(Versions(fs.header), b, iter.token.offset);
    if check.Size? {
      iter.token := TurnPage(fs.numberOfBlocks, iter.token);
      return Paged;
    }
    var entry := EntryAt(b, iter.token.offset);
    var next := iter.token.(offset := iter.token.offset + Occupied(b, iter.token.offset));
    if check.Good? && entry.file == iter.token.file {
      iter.size := entry.size;
      iter.data := b[iter.token.offset + 7..iter.token.offset + 7 + entry.size];
      iter.iterated := (iter.iterated + entry.size) % 0x1_0000_0000;
      if !config.manualNext {
        iter.token := next;
      }
      return Matched;
    }
    iter.token := next;
    return Advanced;
  }

  datatype Stop = Match | End | Limit | Fault

  /** Has the self-imposed budget of blocks or time been used up? */
  predicate UsedUp(config: Config, budget: int, now: u32, started: u32) {
    (config.maxBlocks > 0 && budget == 0) || (config.maxTime > 0 && (now - started) % 0x1_0000_0000 > config.maxTime)
  }

  /** Is the page after which `k` blocks have been left behind the last one? The
      clock is read at the start and once after each page. */
  ghost predicate Limits(config: Config, clock: nat -> u32, k: nat) {
    || (config.maxBlocks > 0 && k == config.maxBlocks)
    || (config.maxTime > 0 && Elapsed(clock(0), clock(k)) > config.maxTime)
  }

  /** The time from one reading of the 32-bit clock to another. */
  function Elapsed(from: u32, to: u32): u32 {
    if from <= to then to - from else to + 0x1_0000_0000 - from
  }

  /** Between two calls: `s` and `t` have become `u` and `v`, the same is still
      pending, and a settled cache has kept its buffer. */
  ghost predicate SameScan(s: Fs.Fs, t: Token, u: Fs.Fs, v: Token)
    requires Ring(s) && InRange(s.card.blocks, t)
  {
    && Coherent(u) && OnlyCache(s, u) && SameSpan(t, v) && (Working(s.card) ==> Working(u.card))
    && Pending(u, v) == Pending(s, t) && Resting(u, v) == Resting(s, t)
    && (Settled(s, t) ==> u.dirty == s.dirty)
  }

  lemma SameScanStep(s: Fs.Fs, t: Token, u: Fs.Fs, v: Token, u': Fs.Fs)
    requires Ring(s) && InRange(s.card.blocks, t) && SameScan(s, t, u, v) && !Done(v)
    requires Coherent(u') && OnlyCache(u, u') && Seen(u', v) == Seen(u, v) && (Working(u.card) ==> Working(u'.card))
    requires Settled(u, v) ==> u'.dirty == u.dirty
    requires Settled(s, t) ==> Settled(u, v)
    ensures SameScan(s, t, u', v)
  {
    hide Remaining, Final, Coherent, Seen;
  }

  /** Where a call that found nothing has stopped: at the end of its range, or
      at the start of the block that the first page past a limit led to. */
  ghost predicate StoppedAt(config: Config, clock: nat -> u32, t: Token, u: Token) {
    || (Done(u) && (u.offset > 0 && t.block < u.block ==> !Limits(config, clock, u.block - t.block))
        && forall k :: 1 <= k < u.block - t.block ==> !Limits(config, clock, k))
    || (t.block < u.block && u == t.(block := u.block, offset := 0) && Limits(config, clock, u.block - t.block)
        && forall k :: 1 <= k < u.block - t.block ==> !Limits(config, clock, k))
  }

  /** If the `k`-th page is the first past a limit and the range does not end
      there, a call that found nothing has stopped exactly there. */
  lemma StopsAtLimit(config: Config, clock: nat -> u32, t: Token, u: Token, k: nat)
    requires StoppedAt(config, clock, t, u) && SameSpan(t, u) && 1 <= k && t.block + k <= MAX32
    requires Limits(config, clock, k) && forall i :: 1 <= i < k ==> !Limits(config, clock, i)
    requires !Done(t.(block := t.block + k, offset := 0)) && t.block <= u.block
    ensures u == t.(block := t.block + k, offset := 0)
  {
  }

  /** None of the first `n` pages is past a limit. */
  ghost predicate Unlimited(config: Config, clock: nat -> u32, n: int) {
    forall k :: 1 <= k <= n ==> !Limits(config, clock, k)
  }

  lemma NoPages(config: Config, clock: nat -> u32)
    ensures Unlimited(config, clock, 0)
  {
  }

  lemma UnlimitedMore(config: Config, clock: nat -> u32, n: nat)
    requires Unlimited(config, clock, n) && !Limits(config, clock, n + 1)
    ensures Unlimited(config, clock, n + 1)
  {
    hide Limits;
  }

  /** After `pages` pages the program's own test says whether a limit is passed. */
  lemma PageLimits(config: Config, clock: nat -> u32, pages: nat, budget: int)
    requires budget == config.maxBlocks - (if config.maxBlocks > 0 then pages else 0)
    ensures UsedUp(config, budget, clock(pages), clock(0)) <==> Limits(config, clock, pages)
  {
  }

  lemma StopsHere(config: Config, clock: nat -> u32, t: Token, u: Token, paged: bool)
    requires t.block <= u.block && SameSpan(t, u)
    requires Unlimited(config, clock, u.block - t.block - if paged then 1 else 0)
    requires if paged then t.block < u.block && u.offset == 0 else Done(u)
    requires Done(u) || Limits(config, clock, u.block - t.block)
    ensures StoppedAt(config, clock, t, u)
  {
    hide Limits;
  }

  /** Without limits a call that found nothing has come to its end. */
  lemma NoLimits(config: Config, clock: nat -> u32, t: Token, u: Token)
    requires StoppedAt(config, clock, t, u) && config.maxBlocks == 0 && config.maxTime == 0
    ensures Done(u)
  {
  }

  /** The loop of `fkfs_file_iterate`, and why it ended; `at` is the place of
      the turn that ended it. */
  method IterateLoop(fs: FileSystem, config: Config, iter: FileIter, clock: nat -> u32) returns (stop: Stop,
      ghost at: Token)
    requires fs.Valid() && Coherent(fs.State()) && Ring(fs.State())
    requires InRange(fs.sd.blocks, iter.token) && 0 < iter.token.block && !Done(iter.token)
    modifies fs, fs.buffer, iter
    ensures SameScan(old(fs.State()), old(iter.token), fs.State(), at)
    ensures at == old(iter.token) || Before(old(iter.token).block, old(iter.token).offset, at.block, at.offset)
    ensures Working(old(fs.sd)) ==> !stop.Fault?
    ensures !stop.Match? ==> iter.token == at
    ensures stop.Match? ==>
              && !Done(at) && (fs.cachedBlockDirty ==> at.block == fs.header.block)
              && var r := NextTurn(fs.State(), at);
              && r.Found? && r.hit.data == iter.data && iter.size == |iter.data|
              && iter.iterated == (old(iter.iterated) + iter.size) % 0x1_0000_0000
              && fs.cachedBlockNumber == at.block && fs.State().buffer == Seen(fs.State(), at)[at.block]
              && iter.token == (if config.manualNext then at else r.next)
    ensures stop.End? ==> Done(at)
    ensures stop.End? || stop.Limit? ==> at != old(iter.token)
    ensures stop.Limit? || stop.Fault? ==> !Done(at)
    ensures stop.End? || stop.Limit? ==> StoppedAt(config, clock, old(iter.token), at)
    ensures stop.Match? ==> Unlimited(config, clock, at.block - old(iter.token).block)
  {
    hide Remaining, Final, Seen, Pending, Resting, OneTurn, Coherent, Limits, StoppedAt, Unlimited, UsedUp;
    ghost var s0, t0 := fs.State(), iter.token;
    NoPages(config, clock);
    var started := clock(0);
    var budget: int := config.maxBlocks;
    var pages := 0;
    while true
      invariant fs.Valid() && Ring(fs.State()) && SameScan(s0, t0, fs.State(), iter.token)
      invariant 0 < t0.block <= iter.token.block
      invariant !Done(iter.token) && (Settled(s0, t0) ==> Settled(fs.State(), iter.token))
      invariant iter.token == t0 || Before(t0.block, t0.offset, iter.token.block, iter.token.offset)
      invariant iter.iterated == old(iter.iterated)
      invariant pages == iter.token.block - t0.block
      invariant budget == config.maxBlocks - (if config.maxBlocks > 0 then pages else 0)
      invariant Unlimited(config, clock, pages)
      decreases iter.token.lastBlock - iter.token.block, 0x1_0000 - iter.token.offset
    {
      at := iter.token;
      ghost var s1 := fs.State();
      var step := TakeTurn(fs, config, iter);
      SameScanStep(s0, t0, s1, at, fs.State());
      if step.Broken? {
        return Fault, at;
      }
      TurnFacts(fs.State(), at, NextTurn(fs.State(), at));
      if step.Matched? {
        return Match, at;
      }
      at := iter.token;
      if Done(iter.token) {
        StopsHere(config, clock, t0, at, step.Paged?);
        return End, at;
      }
      if step.Paged? {
        if config.maxBlocks > 0 {
          budget := budget - 1;
        }
        pages := pages + 1;
        PageLimits(config, clock, pages, budget);
        if UsedUp(config, budget, clock(pages), started) {
          StopsHere(config, clock, t0, at, true);
          return Limit, at;
        }
        UnlimitedMore(config, clock, pages - 1);
      }
    }
  }

  /** Does an iterate call with this budget of blocks reach the next hit? */
  ghost predicate Reaches(maxBlocks: u32, t: Token, hits: seq<Hit>) {
    |hits| > 0 && (maxBlocks == 0 || hits[0].block - t.block < maxBlocks)
  }

  /** The same for any limits: no page before the hit's block is the last one. */
  ghost predicate ReachesInTime(config: Config, clock: nat -> u32, t: Token, hits: seq<Hit>) {
    |hits| > 0 && forall k :: 1 <= k <= hits[0].block - t.block ==> !Limits(config, clock, k)
  }

  /** Readings that never exceed the limit leave the budget of blocks alone. */
  lemma InTime(config: Config, clock: nat -> u32, t: Token, hits: seq<Hit>)
    requires |hits| > 0 ==> hits[0].block >= t.block
    requires config.maxTime == 0 || forall k: nat :: Elapsed(clock(0), clock(k)) <= config.maxTime
    ensures ReachesInTime(config, clock, t, hits) <==> Reaches(config.maxBlocks, t, hits)
  {
    if |hits| > 0 && config.maxBlocks > 0 && hits[0].block - t.block >= config.maxBlocks {
      assert Limits(config, clock, config.maxBlocks);
    }
  }

  /** The hits a call consumes. */
  ghost function Consumed(success: bool, config: Config, hits: seq<Hit>): seq<Hit> {
    if success && !config.manualNext && |hits| > 0 then hits[..1] else []
  }

  /** How the loop's end bears on the pending hits. */
  lemma StopFacts(s: Fs.Fs, config: Config, clock: nat -> u32, t: Token, at: Token, stop: Stop)
    requires Ring(s) && InRange(s.card.blocks, at) && at.block <= MAX32 && (!stop.End? ==> !Done(at))
    requires stop.Match? ==> NextTurn(s, at).Found? && (s.dirty ==> at.block == s.header.block)
    requires stop.Match? ==> Unlimited(config, clock, at.block - t.block)
    requires stop.End? ==> Done(at)
    requires stop.Limit? ==> StoppedAt(config, clock, t, at)
    ensures stop.Match? ==> |Pending(s, at)| > 0 && Pending(s, at)[0] == NextTurn(s, at).hit
                            && InRange(s.card.blocks, NextTurn(s, at).next)
                            && Pending(s, at)[1..] == Pending(s, NextTurn(s, at).next)
    ensures !stop.Fault? ==> (stop.Match? <==> ReachesInTime(config, clock, t, Pending(s, at)))
  {
    hide Remaining, Final, OneTurn, Seen, Pending, Resting;
    match stop
    case Match => TurnFacts(s, at, NextTurn(s, at));
    case End => PendingDone(s, at);
    case Limit => PendingBlocks(s, at);
    case Fault =>
  }

  /** `fkfs_file_iterate`. No hit is skipped or repeated, whatever the budgets,
      the clock and the device do; a call that finds nothing still moves on; and
      with a working device the call finds the next hit exactly when no page
      before it exceeds the budget of blocks or the limit of time, and otherwise
      stops at the first page that does. Unsynced bytes in the buffer are kept if
      the scan stays in their block. */
  method Iterate(fs: FileSystem, config: Config, iter: FileIter, clock: nat -> u32) returns (success: bool)
    requires fs.Valid() && Coherent(fs.State()) && Ring(fs.State()) && InRange(fs.sd.blocks, iter.token)
    modifies fs, fs.buffer, iter
    ensures Coherent(fs.State()) && OnlyCache(old(fs.State()), fs.State()) && SameSpan(old(iter.token), iter.token)
    ensures Settled(old(fs.State()), old(iter.token)) || Done(old(iter.token)) ==>
              fs.cachedBlockDirty == old(fs.cachedBlockDirty)
    ensures success ==>
              && |Pending(old(fs.State()), old(iter.token))| > 0
              && iter.data == Pending(old(fs.State()), old(iter.token))[0].data && iter.size == |iter.data|
              && iter.token.block == Pending(old(fs.State()), old(iter.token))[0].block
              && iter.iterated == (old(iter.iterated) + iter.size) % 0x1_0000_0000
    ensures Pending(old(fs.State()), old(iter.token))
         == Consumed(success, config, Pending(old(fs.State()), old(iter.token))) + Pending(fs.State(), iter.token)
    ensures Resting(fs.State(), iter.token) == Resting(old(fs.State()), old(iter.token))
    ensures success && config.manualNext ==>
              !Done(iter.token) && NextTurn(fs.State(), iter.token).Found?
              && (fs.cachedBlockDirty ==> iter.token.block == fs.header.block)
              && fs.cachedBlockNumber == iter.token.block
                  && fs.State().buffer == Seen(fs.State(), iter.token)[iter.token.block]
    ensures Valid(fs.header.block, old(iter.token)) && !Done(old(iter.token)) && Working(old(fs.sd))
            && !(success && config.manualNext)
            ==> Before(old(iter.token).block, old(iter.token).offset, iter.token.block, iter.token.offset)
    ensures !Before(iter.token.block, iter.token.offset, old(iter.token).block, old(iter.token).offset)
    ensures success && !config.manualNext
            ==> Before(old(iter.token).block, old(iter.token).offset, iter.token.block, iter.token.offset)
    ensures Working(old(fs.sd)) ==> Working(fs.sd)
    ensures success ==> ReachesInTime(config, clock, old(iter.token), Pending(old(fs.State()), old(iter.token)))
    ensures Working(old(fs.sd)) && Valid(fs.header.block, old(iter.token))
            ==> (success <==> ReachesInTime(config, clock, old(iter.token), Pending(old(fs.State()), old(iter.token))))
    ensures Working(old(fs.sd)) && Valid(fs.header.block, old(iter.token)) && !success ==>
              StoppedAt(config, clock, old(iter.token), iter.token)
    ensures Working(old(fs.sd)) && config.maxTime == 0 && Valid(fs.header.block, old(iter.token))
            ==> (success <==> Reaches(config.maxBlocks, old(iter.token), Pending(old(fs.State()), old(iter.token))))
    ensures Working(old(fs.sd)) && config.maxTime == 0 && config.maxBlocks == 0 && !success
            && Valid(fs.header.block, old(iter.token))
            ==> Done(iter.token)
    ensures success ==> Valid(fs.header.block, old(iter.token)) && !Done(old(iter.token))
    ensures success && config.maxTime == 0 ==>
              Reaches(config.maxBlocks, old(iter.token), Pending(old(fs.State()), old(iter.token)))
  {
    hide Remaining, Final, Seen, Pending, Resting, OneTurn, Coherent, Limits;
    ghost var s0, t0 := fs.State(), iter.token;
    if !Valid(fs.header.block, iter.token) {
      return false;
    }
    if Done(iter.token) {
      PendingDone(s0, t0);
      return false;
    }
    hide StoppedAt, ReachesInTime, Unlimited;
    var stop, at := IterateLoop(fs, config, iter, clock);
    CoherentRing(fs.State());
    StopFacts(fs.State(), config, clock, t0, at, stop);
    PendingBlocks(s0, t0);
    if config.maxTime == 0 { InTime(config, clock, t0, Pending(s0, t0)); }
    success := stop.Match?;
    if config.maxTime == 0 && config.maxBlocks == 0 && !success && !stop.Fault? { NoLimits(config, clock, t0, at); }
    if success {
      TurnFacts(fs.State(), at, NextTurn(fs.State(), at));
    }
  }

  /** `fkfs_file_iterate_move`: the step a `manualNext` caller takes itself. */
  method IterateMove(fs: FileSystem, checkBlock: bool, iter: FileIter) returns (ok: bool)
    requires fs.Valid() && (checkBlock || iter.token.offset + ENTRY_SIZE <= 512)
    modifies iter`token
    ensures ok <==> !checkBlock || !Check(Versions(fs.header), fs.State().buffer, old(iter.token).offset).Size?
    ensures ok ==>
              && old(iter.token).offset + ENTRY_SIZE <= 512
              && iter.token == old(iter.token).(
                   offset := (old(iter.token).offset + Occupied(fs.State().buffer, old(iter.token).offset)) % 0x1_0000)
    ensures !ok ==> iter.token == old(iter.token)
  {
    hide Check, EntryAt;
    var b: Block := fs.buffer[..];
    if checkBlock {
      var check := Check(Versions(fs.header), b, iter.token.offset);
      if !check.Crc? && !check.Good? {
        return false;
      }
    }
    iter.token := iter.token.(offset := (iter.token.offset + Occupied(b, iter.token.offset)) % 0x1_0000);
    return true;
  }

  /** Where a hit was returned, stepping over the entry is the scan's next turn. */
  lemma ManualStep(s: Fs.Fs, t: Token)
    requires Ring(s) && InRange(s.card.blocks, t) && !Done(t) && (s.dirty ==> t.block == s.header.block)
    requires NextTurn(s, t).Found? && s.buffer == Seen(s, t)[t.block]
    ensures t.offset + ENTRY_SIZE <= 512 && !Check(Versions(s.header), s.buffer, t.offset).Size?
    ensures NextTurn(s, t).next == t.(offset := (t.offset + Occupied(s.buffer, t.offset)) % 0x1_0000)
    ensures |Pending(s, t)| > 0 && InRange(s.card.blocks, NextTurn(s, t).next)
    ensures Pending(s, t)[1..] == Pending(s, NextTurn(s, t).next)
    ensures Resting(s, t) == Resting(s, NextTurn(s, t).next)
    ensures Before(t.block, t.offset, NextTurn(s, t).next.block, NextTurn(s, t).next.offset)
  {
    hide Remaining, Final, Seen, Check, EntryAt, Pending, Resting;
    TurnFacts(s, t, NextTurn(s, t));
  }

  /** One call by a patient caller: iterate and, if it steps by hand, step. */
  method DrainOnce(fs: FileSystem, iter: FileIter, config: Config, clock: nat -> u32) returns (success: bool)
    requires fs.Valid() && Coherent(fs.State()) && Ring(fs.State()) && Working(fs.sd)
    requires InRange(fs.sd.blocks, iter.token) && Valid(fs.header.block, iter.token) && !Done(iter.token)
    modifies fs, fs.buffer, iter
    ensures Coherent(fs.State()) && OnlyCache(old(fs.State()), fs.State()) && SameSpan(old(iter.token), iter.token)
    ensures Settled(old(fs.State()), old(iter.token)) ==> fs.cachedBlockDirty == old(fs.cachedBlockDirty)
    ensures Working(fs.sd) && Before(old(iter.token).block, old(iter.token).offset, iter.token.block, iter.token.offset)
    ensures Resting(fs.State(), iter.token) == Resting(old(fs.State()), old(iter.token))
    ensures var hits := Pending(old(fs.State()), old(iter.token));
            if success then |hits| > 0 && iter.data == hits[0].data && Pending(fs.State(), iter.token) == hits[1..]
            else Pending(fs.State(), iter.token) == hits
  {
    hide Remaining, Final, Seen, Pending, Resting, OneTurn, Coherent, Check, EntryAt, Occupied;
    ghost var hits := Pending(fs.State(), iter.token);
    success := Iterate(fs, config, iter, clock);
    CoherentRing(fs.State());
    if success && config.manualNext {
      ManualStep(fs.State(), iter.token);
      var moved := IterateMove(fs, true, iter);
    } else if success {
      assert (hits[..1] + Pending(fs.State(), iter.token))[1..] == Pending(fs.State(), iter.token);
    }
  }

  /** Bounded scans refine the unbounded scan. Repeating `fkfs_file_iterate`
      until `fkfs_file_iterator_done`, with any budgets and any clock in each
      call, saving and resuming the token in between, stepping automatically or
      by `fkfs_file_iterate_move`, ends, and yields exactly the entries of one
      unlimited scan. */
  method Drain(fs: FileSystem, iter: FileIter, configs: nat -> Config, clocks: (nat, nat) -> u32)
    returns (out: seq<seq<byte>>)
    requires fs.Valid() && Coherent(fs.State()) && Ring(fs.State()) && Working(fs.sd)
    requires InRange(fs.sd.blocks, iter.token) && iter.token.file < 4 && 0 < iter.token.block
    requires iter.token.lastBlock <= fs.header.block && iter.token.size <= fs.header.files[iter.token.file].size
    modifies fs, fs.buffer, iter
    ensures out == Data(Pending(old(fs.State()), old(iter.token)))
    ensures Done(iter.token) && iter.token == Resting(old(fs.State()), old(iter.token))
    ensures Coherent(fs.State()) && OnlyCache(old(fs.State()), fs.State())
    ensures Settled(old(fs.State()), old(iter.token)) ==> fs.cachedBlockDirty == old(fs.cachedBlockDirty)
  {
    hide Remaining, Final, Seen, Pending, Resting, Coherent, Data;
    ghost var s0, t0 := fs.State(), iter.token;
    out := [];
    var k := 0;
    while !Done(iter.token)
      invariant fs.Valid() && Coherent(fs.State()) && Ring(fs.State()) && OnlyCache(s0, fs.State())
                && SameSpan(t0, iter.token)
      invariant Working(fs.sd) && 0 < iter.token.block
      invariant Settled(s0, t0) ==>
                  fs.cachedBlockDirty == s0.dirty && (Done(iter.token) || Settled(fs.State(), iter.token))
      invariant out + Data(Pending(fs.State(), iter.token)) == Data(Pending(s0, t0))
      invariant Resting(fs.State(), iter.token) == Resting(s0, t0)
      decreases if iter.token.block <= iter.token.lastBlock then iter.token.lastBlock + 1 - iter.token.block else 0,
                0x1_0000 - iter.token.offset
    {
      var saved := iter.token;
      iter.token := Resume(fs.header, saved);
      ghost var hits := Pending(fs.State(), saved);
      var success := DrainOnce(fs, iter, configs(k), n => clocks(k, n));
      CoherentRing(fs.State());
      if success {
        DataSplits(hits);
        Reassociate(out, [iter.data], Data(hits[1..]));
        out := out + [iter.data];
      }
      k := k + 1;
    }
    PendingDone(fs.State(), iter.token);
    NoData();
  }

  lemma DataSplits(hits: seq<Hit>)
    requires |hits| > 0
    ensures Data(hits) == [hits[0].data] + Data(hits[1..])
  {
  }
}
