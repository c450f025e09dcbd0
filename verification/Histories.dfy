/** Whole histories on a working device: operations and losses of power in any
    order, and books that say what is seen, what is on the card and what the next
    loss of power leaves. */
module Histories {
  import opened Bytes
  import opened Header
  import opened Entry
  import opened Fs
  import opened Cache
  import opened HeaderProtocol
  import opened Layout
  import opened Scan
  import opened Journal
  import opened LiveVolume
  import opened Runs
  import opened Incremental
  import opened Unsynced
  import opened Durable

  datatype Event = Perform(op: Op) | PowerLoss(config: Fs)

  ghost predicate Possible(e: Event) {
    match e
    case Perform(op) => Legal(op)
    case PowerLoss(config) => Pristine(config)
  }

  ghost function Happen(s: Fs, e: Event): Fs
    requires Possible(e)
  {
    match e
    case Perform(op) => Do(s, op).fs
    case PowerLoss(config) => Reboot(s, config)
  }

  ghost predicate AllPossible(es: seq<Event>) {
    forall i :: 0 <= i < |es| ==> Possible(es[i])
  }

  ghost function History(s: Fs, es: seq<Event>): Fs
    requires AllPossible(es)
  {
    if |es| == 0 then s else Happen(History(s, es[..|es| - 1]), es[|es| - 1])
  }

  /** Per file: what a reader sees now, what of that is on the card, and what a
      reader would see after losing power. `exposed` tells that the stored header
      counts entries which are still in the buffer only. */
  datatype RawBooks = Books(live: seq<Payloads>, written: seq<Payloads>, saved: seq<Payloads>, exposed: bool)

  type Books = b: RawBooks | |b.live| == 4 && |b.written| == 4 && |b.saved| == 4
    witness Books([[], [], [], []], [[], [], [], []], [[], [], [], []], false)

  /** Everything seen is on the card and stays. */
  function Safe(contents: seq<Payloads>): Books
    requires |contents| == 4
  {
    Books(contents, contents, contents, false)
  }

  /** The bookkeeping rule for one event. A sync file saves everything at once;
      otherwise unsynced entries are saved when the log must leave their block.
      A touch saves what is on the card, and with unsynced entries in the buffer
      that is less than what is seen. */
  ghost function Account(b: Books, s: Fs, e: Event): Books
    requires Possible(e)
  {
    match e
    case Perform(AppendTo(f, data)) =>
      if !(1 <= |data| <= MAX_PAYLOAD) then b
      else
        var live := b.live[f := b.live[f] + [data]];
        if s.settings[f].sync then Safe(live)
        else if s.dirty && Syncs(s, f, data) then Safe(b.live).(live := live)
        else b.(live := live)
    case Perform(TruncateFile(f)) => b.(live := b.live[f := []], written := b.written[f := []])
    case Perform(TruncateEvery) => b.(live := [[], [], [], []], written := [[], [], [], []])
    case Perform(TouchAt(_)) => b.(saved := b.written, exposed := s.dirty)
    case Perform(FlushAt(_)) => Safe(b.live)
    case Perform(Load(_)) => b
    case PowerLoss(_) => Safe(b.saved)
  }

  ghost function Ledger(s: Fs, es: seq<Event>): Books
    requires AllPossible(es)
  {
    if |es| == 0 then Safe([[], [], [], []])
    else Account(Ledger(s, es[..|es| - 1]), History(s, es[..|es| - 1]), es[|es| - 1])
  }

  /** How often file `f` was truncated in a history. */
  function CutCount(es: seq<Event>, f: nat): nat {
    if |es| == 0 then 0
    else CutCount(es[..|es| - 1], f) + if es[|es| - 1].Perform? && Cuts(es[|es| - 1].op, f) then 1 else 0
  }

  /** The hypotheses on one event: the ring has not wrapped, the generation
      counter and the versions have not gone round, reads happen on a settled
      cache, and the filesystem is not started again on a card whose header
      counts entries that never reached it. */
  ghost predicate Allowed(s: Fs, es: seq<Event>, e: Event)
    requires AllPossible(es) && Possible(e)
  {
    var t := History(s, es);
    match e
    case Perform(AppendTo(_, _)) => Roomy(t) && t.header.generation < MAX32 - 1
    case Perform(TruncateFile(f)) => CutCount(es, f) < 0xFFFF
    case Perform(TruncateEvery) => forall f :: 0 <= f < 4 ==> CutCount(es, f) < 0xFFFF
    case Perform(TouchAt(_)) => true
    case Perform(FlushAt(_)) => t.header.generation < MAX32
    case Perform(Load(block)) => !t.dirty || t.cached == block
    case PowerLoss(_) => !Ledger(s, es).exposed
  }

  ghost predicate AllAllowed(s: Fs, es: seq<Event>)
    requires AllPossible(es)
  {
    forall i {:trigger es[i]} :: 0 <= i < |es| ==> Allowed(s, es[..i], es[i])
  }

  lemma AllowedFront(s: Fs, es: seq<Event>)
    requires |es| > 0 && AllPossible(es) && AllAllowed(s, es)
    ensures AllPossible(es[..|es| - 1]) && AllAllowed(s, es[..|es| - 1])
    ensures Allowed(s, es[..|es| - 1], es[|es| - 1])
  {
    hide Allowed;
    var front := es[..|es| - 1];
    forall i | 0 <= i < |front|
      ensures Allowed(s, front[..i], front[i])
    {
      assert front[i] == es[i] && front[..i] == es[..i];
    }
  }

  /** The two journals after an event. */
  ghost function NextLive(s: Fs, j: Journal, d: Journal, e: Event): Journal
    requires Possible(e)
  {
    match e
    case Perform(op) => Follow(s, j, op)
    case PowerLoss(_) => d
  }

  ghost function NextKept(s: Fs, j: Journal, d: Journal, e: Event): Journal
    requires Possible(e)
  {
    match e
    case Perform(AppendTo(f, data)) => AfterSync(s, j, d, f, data)
    case Perform(TouchAt(_)) => j
    case Perform(FlushAt(_)) => j
    case _ => d
  }

  /** How many records of the last block are on the card after an event. */
  ghost function NextCount(s: Fs, j: Journal, n: nat, d: Journal, e: Event): nat
    requires Possible(e)
  {
    match e
    case Perform(AppendTo(f, data)) =>
      if !Admitted(|data|) then n
      else if s.settings[f].sync then |Last(AfterAppend(s, j, f, data).log)|
      else if ENTRY_SIZE + |data| + s.header.offset > 512 then 0
      else if s.dirty then n
      else |Last(j.log)|
    case Perform(FlushAt(_)) => |Last(j.log)|
    case PowerLoss(_) => |Last(d.log)|
    case _ => n
  }

  /** `Allowed`, in terms of the journals. */
  ghost predicate Fit(s: Fs, j: Journal, b: Books, e: Event)
    requires Possible(e)
  {
    match e
    case Perform(op) =>
      && Ready(s, j, op) && (op.FlushAt? ==> s.header.generation < MAX32)
      && (op.AppendTo? ==> s.header.generation < MAX32 - 1)
    case PowerLoss(_) => !b.exposed
  }

  // ----- one event -----

  /** The books are right. */
  ghost predicate Booked(s: Fs, j: Journal, d: Journal, n: nat, b: Books) {
    && Live(s, j) && Protocol(s) && Working(s.card) && Written(s, j, n) && j.contents == b.live
    && (forall f :: 0 <= f < 4 ==> Lands(s, j, n, f, b.written[f]))
    && Leaves(s, b.saved)
    && (if b.exposed then s.dirty else Kept(s, d) && d.contents == b.saved)
  }

  /** With a clean buffer and its header stored, all books agree. */
  lemma SettledIsBooked(s: Fs, j: Journal)
    requires Live(s, j) && Kept(s, j) && Working(s.card) && !s.dirty
    ensures Booked(s, j, j, |Last(j.log)|, Safe(j.contents))
  {
    KeptIsProtocol(s, j);
    hide Live, Kept, Protocol, Written, Lands, Leaves, Working;
    WrittenClean(s, j);
    KeptLeaves(s, j);
    forall f | 0 <= f < 4
      ensures Lands(s, j, |Last(j.log)|, f, j.contents[f])
    {
      LandsAll(s, j, f);
    }
  }

  /** An operation that leaves the card, the stored header and the current block alone. */
  lemma QuietIsBooked(s: Fs, j: Journal, d: Journal, n: nat, b: Books, t: Fs, k: Journal, c: Books)
    requires Booked(s, j, d, n, b) && Live(t, k) && t.card.blocks == s.card.blocks && Working(t.card)
    requires t.headerIndex == s.headerIndex && t.header.generation == s.header.generation
             && t.header.block == s.header.block
    requires t.dirty == s.dirty && k.log == j.log && k.contents == c.live
    requires c.saved == b.saved && c.exposed == b.exposed && (!b.exposed ==> Kept(t, d))
    requires forall f :: 0 <= f < 4 ==> Lands(t, k, n, f, c.written[f])
    ensures Booked(t, k, d, n, c)
  {
    LiveIsCoherent(t, k);
    hide Live, Kept, Protocol, Lands, Leaves, Working, Full, Stored;
    ProtocolFrame(s, t);
    LeavesFrame(s, b.saved, t);
  }

  lemma TruncateBooked(s: Fs, j: Journal, d: Journal, n: nat, b: Books, f: nat)
    requires Booked(s, j, d, n, b) && f < 4 && j.bumps[f] < 0xFFFF
    ensures Booked(Truncate(s, f), Cut(j, f), d, n, b.(live := b.live[f := []], written := b.written[f := []]))
  {
    hide Live, Kept, Protocol, Lands, Leaves, Working, Written;
    var t, k := Truncate(s, f), Cut(j, f);
    LiveTruncate(s, j, f);
    if !b.exposed { KeptTruncate(s, d, f); }
    assert n <= |Last(j.log)| by { WrittenBound(s, j, n); }
    var c := b.(live := b.live[f := []], written := b.written[f := []]);
    forall g | 0 <= g < 4
      ensures Lands(t, k, n, g, c.written[g])
    {
      if g == f { LandsNone(t, k, n, f); } else { LandsFrame(s, j, t, k, n, g, b.written[g]); }
    }
    QuietIsBooked(s, j, d, n, b, t, k, c);
  }

  lemma WrittenBound(s: Fs, j: Journal, n: nat)
    requires Written(s, j, n)
    ensures n <= |Last(j.log)|
  {
  }

  lemma TruncateAllBooked(s: Fs, j: Journal, d: Journal, n: nat, b: Books)
    requires Booked(s, j, d, n, b) && forall f :: 0 <= f < 4 ==> j.bumps[f] < 0xFFFF
    ensures Booked(TruncateAll(s), CutAll(j), d, n, b.(live := [[], [], [], []], written := [[], [], [], []]))
  {
    hide Booked, Truncate;
    TruncateBooked(s, j, d, n, b, 0);
    var b0 := b.(live := b.live[0 := []], written := b.written[0 := []]);
    TruncateBooked(Truncate(s, 0), Cut(j, 0), d, n, b0, 1);
    var b1 := b0.(live := b0.live[1 := []], written := b0.written[1 := []]);
    TruncateBooked(Truncate(Truncate(s, 0), 1), Cut(Cut(j, 0), 1), d, n, b1, 2);
    var b2 := b1.(live := b1.live[2 := []], written := b1.written[2 := []]);
    TruncateBooked(Truncate(Truncate(Truncate(s, 0), 1), 2), Cut(Cut(Cut(j, 0), 1), 2), d, n, b2, 3);
    var b3 := b2.(live := b2.live[3 := []], written := b2.written[3 := []]);
    assert b3.live == [[], [], [], []] && b3.written == [[], [], [], []];
  }

  lemma LoadBooked(s: Fs, j: Journal, d: Journal, n: nat, b: Books, block: u32)
    requires Booked(s, j, d, n, b) && (!s.dirty || s.cached == block)
    ensures Booked(BlockEnsure(s, block).fs, j, d, n, b)
  {
    LiveIsCoherent(s, j);
    hide Live, Kept, Protocol, Leaves, Working, Written, Landed, Data;
    EnsureKeeps(s, block);
    LiveEnsure(s, j, block);
    if !b.exposed { KeptLoad(s, d, block); }
    LoadWorks(s, block);
    QuietIsBooked(s, j, d, n, b, BlockEnsure(s, block).fs, j, b);
  }

  lemma LoadWorks(s: Fs, block: u32)
    requires Working(s.card)
    ensures Working(BlockEnsure(s, block).fs.card) && BlockEnsure(s, block).fs.headerIndex == s.headerIndex
  {
  }

  lemma TouchWrites(s: Fs, j: Journal, n: nat, time: u32)
    requires Coherent(s) && Written(s, j, n)
    ensures Written(Touch(s, time).fs, j, n) && Touch(s, time).fs.header.files == s.header.files
  {
    hide HeaderWrite, Full, Touch;
    TouchCard(s, time);
    TouchLife(s, time);
    TouchKeeps(s, time);
  }

  lemma LandsSame(s: Fs, j: Journal, n: nat, t: Fs, written: seq<Payloads>)
    requires |written| == 4 && t.header.files == s.header.files
    requires forall f :: 0 <= f < 4 ==> Lands(s, j, n, f, written[f])
    ensures forall f :: 0 <= f < 4 ==> Lands(t, j, n, f, written[f])
  {
    hide Landed, Data;
  }

  /** A touch: the stored header now counts everything, the card still holds
      only what was written. */
  lemma TouchBooked(s: Fs, j: Journal, d: Journal, n: nat, b: Books, time: u32)
    requires Booked(s, j, d, n, b)
    ensures Booked(Touch(s, time).fs, j, j, n, b.(saved := b.written, exposed := s.dirty))
  {
    LiveIsCoherent(s, j);
    assert !s.dirty ==> n == |Last(j.log)|;
    hide Live, Kept, Protocol, Leaves, Lands, Written, Working, Touch, Coherent, Stored, Slot, SameView;
    TouchWorks(s, time);
    TouchProtocol(s, time);
    TouchWrites(s, j, n, time);
    LandsSame(s, j, n, Touch(s, time).fs, b.written);
    LiveTouch(s, j, time);
    TouchLeaves(s, j, n, time, b.written);
    if !s.dirty {
      KeptTouch(s, j, time);
      AllLanded(s, j, b.written);
    }
  }

  lemma AllLanded(s: Fs, j: Journal, written: seq<Payloads>)
    requires Live(s, j) && |written| == 4 && forall f :: 0 <= f < 4 ==> Lands(s, j, |Last(j.log)|, f, written[f])
    ensures written == j.contents
  {
    hide Live, Landed, Data;
    forall f | 0 <= f < 4
      ensures written[f] == j.contents[f]
    {
      LandsAll(s, j, f);
    }
  }

  lemma FlushBooked(s: Fs, j: Journal, d: Journal, n: nat, b: Books, time: u32)
    requires Booked(s, j, d, n, b) && s.header.generation < MAX32
    ensures Booked(Flush(s, time).fs, j, j, |Last(j.log)|, Safe(b.live))
  {
    LiveIsCoherent(s, j);
    hide Live, Kept, Protocol, Leaves, Lands, Written, Working, Flush, Coherent;
    LiveFlush(s, j, time);
    KeptFlush(s, j, time);
    FlushHolds(s, time);
    SettledIsBooked(Flush(s, time).fs, j);
  }

  lemma SyncAppend(s: Fs, j: Journal, f: nat, data: seq<byte>)
    requires f < 4 && 1 <= |data| <= MAX_PAYLOAD
    requires Live(s, j) && Roomy(s) && Working(s.card) && s.settings[f].sync
    ensures !Append(s, f, data).fs.dirty && Append(s, f, data).fs.settings == s.settings
  {
    hide Live, Fsync, Allocate, Put, Roomy, AfterAppend, Coherent, Working;
    AllocateAccepts(s, j, f, ENTRY_SIZE + |data|);
    LiveBeforeSync(s, j, f, data);
    var a := Allocate(s, f, ENTRY_SIZE + |data|);
    PutFacts(a.fs, f, data);
    PutAccepts(a.fs, f, data);
    FsyncKeeps(Put(a.fs, f, data));
  }

  lemma AcceptedAdds(s: Fs, j: Journal, f: nat, data: seq<byte>)
    requires Live(s, j) && Roomy(s) && f < 4 && 1 <= |data| <= MAX_PAYLOAD && Working(s.card)
    ensures AfterAppend(s, j, f, data).contents == j.contents[f := j.contents[f] + [data]]
  {
    hide Live, Roomy, Working, Allocate;
    AllocateAccepts(s, j, f, ENTRY_SIZE + |data|);
  }

  lemma SyncAppendBooked(s: Fs, j: Journal, d: Journal, n: nat, b: Books, f: nat, data: seq<byte>)
    requires Booked(s, j, d, n, b) && s.header.generation < MAX32 - 1 && Roomy(s)
    requires f < 4 && 1 <= |data| <= MAX_PAYLOAD && s.settings[f].sync
    ensures var k := AfterAppend(s, j, f, data);
            Booked(Append(s, f, data).fs, k, k, |Last(k.log)|, Safe(b.live[f := b.live[f] + [data]]))
  {
    LiveIsCoherent(s, j);
    hide Live, Kept, Protocol, Leaves, Lands, Written, Working, Append, Coherent, Roomy, Allocate, AfterAppend, Took;
    LiveAppend(s, j, f, data);
    SyncInPlace(s, j, d, f, data);
    SyncAppend(s, j, f, data);
    AppendHolds(s, f, data);
    AcceptedAdds(s, j, f, data);
    SettledIsBooked(Append(s, f, data).fs, AfterAppend(s, j, f, data));
  }

  /** An append in place changes neither the card nor the stored header. */
  lemma AppendInPlace(s: Fs, j: Journal, f: nat, data: seq<byte>)
    requires Live(s, j) && Roomy(s) && Working(s.card) && s.dirty
    requires f < 4 && 1 <= |data| <= MAX_PAYLOAD && !Syncs(s, f, data)
    ensures var t := Append(s, f, data).fs;
            t.card == s.card && t.headerIndex == s.headerIndex && t.header.block == s.header.block && t.dirty
  {
    LiveIsCoherent(s, j);
    hide Live, Append, Put, Working, Coherent, Roomy, Arrive, AfterAppend;
    AppendIsPut(s, j, f, data);
    ArriveStores(s, false);
    PutFacts(s, f, data);
  }

  lemma AppendLands(s: Fs, j: Journal, d: Journal, n: nat, b: Books, f: nat, data: seq<byte>)
    requires Live(s, j) && Written(s, j, n) && Working(s.card) && Roomy(s) && j.contents == b.live
    requires forall g :: 0 <= g < 4 ==> Lands(s, j, n, g, b.written[g])
    requires f < 4 && 1 <= |data| <= MAX_PAYLOAD && !s.settings[f].sync
    ensures var e := Perform(AppendTo(f, data));
            var t, k, m, c := Append(s, f, data).fs, AfterAppend(s, j, f, data), NextCount(s, j, n, d, e),
                Account(b, s, e);
            Written(t, k, m) && forall g :: 0 <= g < 4 ==> Lands(t, k, m, g, c.written[g])
  {
    hide Live, Lands, Written, Working, Append, Roomy, AfterAppend;
    AppendWrites(s, j, n, f, data);
    var e := Perform(AppendTo(f, data));
    var t, k, m, c := Append(s, f, data).fs, AfterAppend(s, j, f, data), NextCount(s, j, n, d, e), Account(b, s, e);
    forall g | 0 <= g < 4
      ensures Lands(t, k, m, g, c.written[g])
    {
      AppendLandsOne(s, j, n, f, data, g, b.written[g]);
    }
  }

  lemma AccountLive(b: Books, s: Fs, f: nat, data: seq<byte>)
    requires f < 4 && 1 <= |data| <= MAX_PAYLOAD
    ensures Account(b, s, Perform(AppendTo(f, data))).live == b.live[f := b.live[f] + [data]]
  {
  }

  /** What losing power leaves after an append that does not sync by itself. */
  lemma AppendSaves(s: Fs, j: Journal, d: Journal, n: nat, b: Books, f: nat, data: seq<byte>)
    requires Booked(s, j, d, n, b) && s.header.generation < MAX32 - 1 && Roomy(s)
    requires f < 4 && 1 <= |data| <= MAX_PAYLOAD && !s.settings[f].sync
    ensures var e := Perform(AppendTo(f, data));
            var t, k, c := Append(s, f, data).fs, NextKept(s, j, d, e), Account(b, s, e);
            Leaves(t, c.saved) && (if c.exposed then t.dirty else Kept(t, k) && k.contents == c.saved)
  {
    hide Live, Kept, Protocol, Leaves, Lands, Written, Working, Append, Coherent, Roomy, AfterAppend;
    var t, k := Append(s, f, data).fs, AfterAppend(s, j, f, data);
    if b.exposed && !Syncs(s, f, data) {
      LiveAppend(s, j, f, data);
      AppendInPlace(s, j, f, data);
      LiveIsCoherent(t, k);
      LeavesFrame(s, b.saved, t);
    } else {
      KeptAppend(s, j, d, f, data);
      KeptLeaves(t, NextKept(s, j, d, Perform(AppendTo(f, data))));
    }
  }

  lemma AppendBooked(s: Fs, j: Journal, d: Journal, n: nat, b: Books, f: nat, data: seq<byte>)
    requires Booked(s, j, d, n, b) && s.header.generation < MAX32 - 1 && Roomy(s)
    requires f < 4 && 1 <= |data| <= MAX_PAYLOAD && !s.settings[f].sync
    ensures var e := Perform(AppendTo(f, data));
            Booked(Append(s, f, data).fs, AfterAppend(s, j, f, data), NextKept(s, j, d, e), NextCount(s, j, n, d, e),
                Account(b, s, e))
  {
    LiveIsCoherent(s, j);
    hide Live, Kept, Protocol, Leaves, Lands, Written, Working, Append, Coherent, Roomy, AfterAppend;
    hide NextKept, NextCount, Account;
    AppendLands(s, j, d, n, b, f, data);
    AccountLive(b, s, f, data);
    AppendSaves(s, j, d, n, b, f, data);
    LiveAppend(s, j, f, data);
    AppendHolds(s, f, data);
    AcceptedAdds(s, j, f, data);
  }

  lemma AppendEvent(s: Fs, j: Journal, d: Journal, n: nat, b: Books, f: nat, data: seq<byte>)
    requires Booked(s, j, d, n, b) && s.header.generation < MAX32 - 1 && Roomy(s) && f < 4 && |data| <= 65528
    ensures var e := Perform(AppendTo(f, data));
            Booked(Append(s, f, data).fs, AfterAppend(s, j, f, data), NextKept(s, j, d, e), NextCount(s, j, n, d, e),
                Account(b, s, e))
  {
    hide Booked, Allocate, Fsync, Put, Roomy;
    if Admitted(|data|) {
      if s.settings[f].sync {
        SyncAppendBooked(s, j, d, n, b, f, data);
      } else {
        AppendBooked(s, j, d, n, b, f, data);
      }
    }
  }

  /** An empty volume as start-up on a blank card leaves it. */
  ghost predicate Fresh(s: Fs) {
    Booked(s, EMPTY_JOURNAL, EMPTY_JOURNAL, 0, Safe([[], [], [], []]))
  }

  /** Every event keeps the books right. */
  lemma EventBooked(s: Fs, j: Journal, d: Journal, n: nat, b: Books, e: Event)
    requires Possible(e) && Booked(s, j, d, n, b) && Fit(s, j, b, e)
    ensures Booked(Happen(s, e), NextLive(s, j, d, e), NextKept(s, j, d, e), NextCount(s, j, n, d, e), Account(b, s, e))
  {
    hide Booked, Append, Truncate, TruncateAll, Touch, Flush, BlockEnsure, AfterAppend, AfterSync, Reboot;
    hide Pristine, Roomy;
    match e
    case Perform(AppendTo(f, data)) => AppendEvent(s, j, d, n, b, f, data);
    case Perform(TruncateFile(f)) => TruncateBooked(s, j, d, n, b, f);
    case Perform(TruncateEvery) => TruncateAllBooked(s, j, d, n, b);
    case Perform(TouchAt(time)) => TouchBooked(s, j, d, n, b, time);
    case Perform(FlushAt(time)) => FlushBooked(s, j, d, n, b, time);
    case Perform(Load(block)) => LoadBooked(s, j, d, n, b, block);
    case PowerLoss(config) => RebootBooked(s, j, d, n, b, config);
  }

  lemma RebootBooked(s: Fs, j: Journal, d: Journal, n: nat, b: Books, config: Fs)
    requires Booked(s, j, d, n, b) && !b.exposed && Pristine(config)
    ensures Booked(Reboot(s, config), d, d, |Last(d.log)|, Safe(b.saved))
  {
    hide Live, Kept, Protocol, Leaves, Lands, Written, Working, Reboot, Pristine;
    RebootRestores(s, d, config);
    RebootClean(s, d, config);
    SettledIsBooked(Reboot(s, config), d);
  }

  lemma EventCounts(s: Fs, j: Journal, d: Journal, e: Event, f: nat)
    requires Possible(e) && f < 4
    ensures NextLive(s, j, d, e).bumps[f]
         <= (if e.Perform? then j.bumps[f] else d.bumps[f]) + (if e.Perform? && Cuts(e.op, f) then 1 else 0)
    ensures NextKept(s, j, d, e).bumps[f] <= d.bumps[f] || NextKept(s, j, d, e).bumps[f] <= j.bumps[f]
  {
    hide Allocate;
  }

  /** Along every history on a working device, bare touches and losses of power
      between operations included, the books are right. */
  lemma {:induction false} HistoryIsBooked(s: Fs, es: seq<Event>) returns (j: Journal, d: Journal, n: nat)
    requires Fresh(s)
    requires AllPossible(es) && AllAllowed(s, es)
    ensures Booked(History(s, es), j, d, n, Ledger(s, es))
    ensures forall f :: 0 <= f < 4 ==> j.bumps[f] <= CutCount(es, f) && d.bumps[f] <= CutCount(es, f)
    decreases |es|
  {
    hide Booked, Happen, NextLive, NextKept, NextCount, Account;
    if |es| == 0 {
      j, d, n := EMPTY_JOURNAL, EMPTY_JOURNAL, 0;
    } else {
      AllowedFront(s, es);
      var front, e := es[..|es| - 1], es[|es| - 1];
      var j0, d0, n0 := HistoryIsBooked(s, front);
      var t, b := History(s, front), Ledger(s, front);
      AllowedIsFit(s, front, e, j0);
      EventBooked(t, j0, d0, n0, b, e);
      j, d, n := NextLive(t, j0, d0, e), NextKept(t, j0, d0, e), NextCount(t, j0, n0, d0, e);
      forall f | 0 <= f < 4
        ensures j.bumps[f] <= CutCount(es, f) && d.bumps[f] <= CutCount(es, f)
      {
        EventCounts(t, j0, d0, e, f);
      }
    }
  }

  lemma AllowedIsFit(s: Fs, es: seq<Event>, e: Event, j: Journal)
    requires AllPossible(es) && Possible(e) && Allowed(s, es, e)
    requires forall f :: 0 <= f < 4 ==> j.bumps[f] <= CutCount(es, f)
    ensures Fit(History(s, es), j, Ledger(s, es), e)
  {
    hide History, CutCount, Pristine, Ledger;
  }

  /** A filesystem just started on a blank card. */
  ghost predicate Begun(boot: Fs, wipe: bool, draws: seq<u16>) {
    && Pristine(boot) && |draws| == 4 && Blank(boot.card.blocks) && (wipe || boot.card.blocks[0] == ZERO_BLOCK)
    && Working(boot.card) && Initialize(boot, wipe, draws).ok
  }

  lemma BegunIsBooked(boot: Fs, wipe: bool, draws: seq<u16>)
    requires Begun(boot, wipe, draws)
    ensures var s := Initialize(boot, wipe, draws).fs;
            Fresh(s) && s.header.generation == 1
  {
    hide Initialize, Live, Kept;
    StartIsLive(boot, wipe, draws);
    var s := Initialize(boot, wipe, draws).fs;
    CleanIsKept(s, EMPTY_JOURNAL);
    StartStaysWorking(boot, wipe, draws);
    SettledIsBooked(s, EMPTY_JOURNAL);
  }

  /** Read-back across power losses: whatever happened, a file reads back as
      its books say, now and after the next loss of power. */
  lemma DurableReadBack(boot: Fs, wipe: bool, draws: seq<u16>, es: seq<Event>, config: Fs, f: nat)
    requires Begun(boot, wipe, draws) && AllPossible(es) && Pristine(config) && f < 4
    requires AllAllowed(Initialize(boot, wipe, draws).fs, es)
    ensures var s := Initialize(boot, wipe, draws).fs;
            var t := History(s, es);
            var u := Reboot(t, config);
            && Reads(t, f, Ledger(s, es).live[f])
                && t.header.files[f].size == Total(Ledger(s, es).live[f]) % 0x1_0000_0000
            && Reads(u, f, Ledger(s, es).saved[f])
  {
    assert |draws| == 4;
    hide History, Remaining, Initialize, Ledger, Reboot, Kept, Live, Data, Begun, ViewBlocks, Protocol;
    hide Leaves, Lands, Written, Working, Coherent, Stored;
    BegunIsBooked(boot, wipe, draws);
    var s := Initialize(boot, wipe, draws).fs;
    var j, d, n := HistoryIsBooked(s, es);
    var t := History(s, es);
    LiveIsCoherent(t, j);
    LiveReads(t, j, f);
    RebootReads(t, Ledger(s, es).saved, config);
  }

  lemma StartStaysWorking(s: Fs, wipe: bool, draws: seq<u16>)
    requires |draws| == 4 && Working(s.card)
    ensures Working(Initialize(s, wipe, draws).fs.card)
  {
    hide HeaderBytes, Splice, Newest, Seal, HeaderFrom, Slot;
  }
}
