/** The older of the two header slots: what it describes stays readable, so
    that start-up has something to fall back to. */
module Older {
  import opened Bytes
  import opened Header
  import opened Entry
  import opened Card
  import opened Fs
  import opened Cache
  import opened HeaderProtocol
  import opened Layout
  import opened ScanLog
  import opened Journal
  import opened LiveVolume
  import opened Runs
  import opened Incremental
  import opened Unsynced
  import opened Durable
  import opened Histories

  /** The header in the slot that is not current. */
  ghost function OtherHeader(s: Fs): Header
    requires |s.card.blocks| > 0
  {
    HeaderFrom(Slot(s.card.blocks[0], 1 - s.headerIndex))
  }

  /** The stored header describes `d`, of which the live log is a continuation.
      The other slot is valid and describes `o`, an earlier journal which the
      card still carries. */
  ghost predicate Backed(s: Fs, j: Journal, d: Journal, o: Journal) {
    && |s.card.blocks| > 0 && Tracks(Stored(s), d) && Grows(d.log, j.log)
    && SlotValid(Slot(s.card.blocks[0], 1 - s.headerIndex)) && Tracks(OtherHeader(s), o)
    && Grows(o.log, d.log) && Carried(s.card.blocks, o)
  }

  /** A card that carries a log carries its beginnings. */
  lemma CarriedGrown(blocks: Blocks, d: Journal, j: Journal)
    requires Carried(blocks, j) && Grows(d.log, j.log)
    ensures Carried(blocks, d)
  {
    hide Full, Encode;
    var top, rs := Top(d.log), Last(d.log);
    assert rs[..|rs|] == rs;
    if top < Top(j.log) {
      FullHolds(blocks[8000 + top], j.log[top]);
    } else {
      var all := j.log[top];
      assert all[..|all|] == all;
    }
    HoldsPrefix(blocks[8000 + top], j.log[top], |rs|);
    assert j.log[top][..|rs|] == rs;
  }

  lemma GrowsItself(a: Log)
    requires |a| > 0
    ensures Grows(a, a)
  {
  }

  lemma BackedFrame(s: Fs, j: Journal, d: Journal, o: Journal, t: Fs, k: Journal)
    requires Backed(s, j, d, o) && t.card.blocks == s.card.blocks && t.headerIndex == s.headerIndex
    requires Grows(j.log, k.log)
    ensures Backed(t, k, d, o)
  {
    hide Tracks, Carried, SlotValid, Slot, HeaderFrom;
    GrowsOn(d.log, j.log, k.log);
  }

  /** A sync makes the slot that was current the older one. */
  lemma BackedFsync(s: Fs, j: Journal, d: Journal, o: Journal)
    requires Live(s, j) && Protocol(s) && Backed(s, j, d, o) && s.dirty && Fsync(s).ok && s.header.generation < MAX32
    ensures Backed(Fsync(s).fs, j, j, d)
  {
    hide Live, Fsync, Protocol, Tracks, Carried, SlotValid, Slot, HeaderFrom, Grows;
    var t := Fsync(s).fs;
    LiveFsync(s, j);
    SyncedSlots(s, j);
    GrowsItself(j.log);
    LiveCardCarried(t, j);
    CarriedGrown(t.card.blocks, d, j);
  }

  lemma SyncedSlots(s: Fs, j: Journal)
    requires Live(s, j) && Protocol(s) && s.dirty && Fsync(s).ok
    ensures var t := Fsync(s).fs;
            && |t.card.blocks| > 0 && !t.dirty && t.headerIndex == 1 - s.headerIndex && Tracks(Stored(t), j)
            && Slot(t.card.blocks[0], s.headerIndex) == Slot(s.card.blocks[0], s.headerIndex)
            && SlotValid(Slot(s.card.blocks[0], s.headerIndex))
  {
    LiveIsCoherent(s, j);
    assert Tracks(s.header, j);
    hide Live, Fsync, Tracks, SlotValid, Slot, HeaderFrom;
    FsyncProtocol(s);
    FsyncKeeps(s);
    TracksFrame(s.header, j, Fsync(s).fs.header);
  }

  /** On a clean live volume the card itself carries the journal. */
  lemma LiveCardCarried(s: Fs, j: Journal)
    requires Live(s, j) && !s.dirty
    ensures Carried(s.card.blocks, j)
  {
    hide Carried, Tracks, Full;
    LiveCarried(s, j);
  }

  /** A touch changes what the current slot describes, and nothing else. */
  lemma BackedTouch(s: Fs, j: Journal, d: Journal, o: Journal, time: u32)
    requires Live(s, j) && Protocol(s) && Backed(s, j, d, o) && Touch(s, time).ok
    ensures Backed(Touch(s, time).fs, j, j, o)
  {
    hide Live, Touch, Protocol, Tracks, Carried, SlotValid, Slot, HeaderFrom, Grows;
    var t := Touch(s, time).fs;
    TouchProtocol(s, time);
    TouchKeeps(s, time);
    TouchCard(s, time);
    LiveTracks(s, j);
    TracksFrame(s.header, j, t.header);
    GrowsItself(j.log);
    GrowsOn(o.log, d.log, j.log);
    SameCarried(s.card.blocks, t.card.blocks, o);
  }

  lemma LiveTracks(s: Fs, j: Journal)
    requires Live(s, j)
    ensures Tracks(s.header, j)
  {
  }

  lemma BackedArrive(s: Fs, j: Journal, d: Journal, o: Journal, move: bool)
    requires Live(s, j) && Protocol(s) && Backed(s, j, d, o) && Working(s.card) && (move ==> Roomy(s))
    requires s.header.generation < MAX32
    ensures var a, syncs := Arrive(s, move).fs, s.dirty && move;
            Backed(a, Reached(j, s.header.block, a.header.block), if syncs then j else d, if syncs then d else o)
  {
    hide Live, Protocol, Backed, Working, Roomy, Arrive, Fsync, Coherent, Grows;
    LiveIsCoherent(s, j);
    ArrivesAt(s, j, move);
    ArriveStores(s, move);
    FsyncWorks(s);
    MovedGrows(j);
    GrowsItself(j.log);
    var a := Arrive(s, move).fs;
    if s.dirty && move {
      BackedFsync(s, j, d, o);
      BackedFrame(Fsync(s).fs, j, j, d, a, Moved(j));
    } else {
      CleanMove(s, move);
      BackedFrame(s, j, d, o, a, if move then Moved(j) else j);
    }
  }

  lemma CleanMove(s: Fs, move: bool)
    requires !(s.dirty && move)
    ensures move ==> Fsync(s) == Outcome(s, true)
  {
  }

  lemma MovedGrows(j: Journal)
    ensures Grows(j.log, Moved(j).log)
  {
  }

  lemma AddedGrows(j: Journal, r: Rec)
    ensures Grows(j.log, Added(j, r).log)
  {
  }

  /** The older journal after an append. */
  ghost function OlderAfter(s: Fs, j: Journal, d: Journal, o: Journal, f: nat, data: seq<byte>): Journal
    requires f < 4
  {
    if !Admitted(|data|) then o
    else if s.dirty && Moves(s, data) then (if s.settings[f].sync then j else d)
    else if s.settings[f].sync then d
    else o
  }

  lemma BackedAppend(s: Fs, j: Journal, d: Journal, o: Journal, f: nat, data: seq<byte>)
    requires Live(s, j) && Protocol(s) && Backed(s, j, d, o) && Working(s.card) && Roomy(s)
    requires s.header.generation < MAX32 - 1 && f < 4 && 1 <= |data| <= MAX_PAYLOAD
    ensures Backed(Append(s, f, data).fs, AfterAppend(s, j, f, data), AfterSync(s, j, d, f, data),
            OlderAfter(s, j, d, o, f, data))
  {
    hide Live, Protocol, Backed, Working, Roomy, Arrive, Fsync, Coherent, Grows, Put, Allocate;
    var required := ENTRY_SIZE + |data|;
    var move := Moves(s, data);
    AllocateAccepts(s, j, f, required);
    AllocateArrives(s, j, f, required);
    LiveAllocate(s, j, f, required);
    BackedArrive(s, j, d, o, move);
    LiveBeforeSync(s, j, f, data);
    ProtocolBeforeSync(s, j, f, data);
    var a := Allocate(s, f, required).fs;
    var k, p := Reached(j, s.header.block, a.header.block), Put(a, f, data);
    assert AfterAppend(s, j, f, data) == Added(k, NewRec(s, f, data));
    var d1, o1 := if s.dirty && move then j else d, if s.dirty && move then d else o;
    PutFacts(a, f, data);
    AddedGrows(k, NewRec(s, f, data));
    BackedFrame(a, k, d1, o1, p, Added(k, NewRec(s, f, data)));
    if s.settings[f].sync {
      PutAccepts(a, f, data);
      BackedFsync(p, Added(k, NewRec(s, f, data)), d1, o1);
    }
  }

  lemma BackedFlush(s: Fs, j: Journal, d: Journal, o: Journal, time: u32)
    requires Live(s, j) && Protocol(s) && Backed(s, j, d, o) && Working(s.card) && s.header.generation < MAX32
    ensures Backed(Flush(s, time).fs, j, j, if s.dirty then j else o)
  {
    hide Live, Protocol, Backed, Working, Touch, Fsync, Coherent;
    LiveIsCoherent(s, j);
    var t := Touch(s, time).fs;
    TouchWorks(s, time);
    TouchProtocol(s, time);
    TouchKeeps(s, time);
    BackedTouch(s, j, d, o, time);
    LiveTouch(s, j, time);
    FsyncWorks(t);
    if s.dirty { BackedFsync(t, j, j, o); } else { CleanFsync(t); }
  }

  lemma BackedReboot(s: Fs, j: Journal, d: Journal, o: Journal, config: Fs)
    requires Protocol(s) && Backed(s, j, d, o) && Pristine(config)
    ensures Backed(Reboot(s, config), d, d, o)
  {
    hide Initialize, Tracks, Protocol, Carried, SlotValid, Slot, HeaderFrom;
    InitializeRestores(s, config.(card := Card(s.card.blocks, [])), [0, 0, 0, 0]);
    GrowsItself(d.log);
  }

  // ----- over histories -----

  /** Per file: what the current slot counts, and what the other one does. */
  datatype RawShelf = Shelf(counted: seq<Payloads>, older: seq<Payloads>)

  type Shelf = h: RawShelf | |h.counted| == 4 && |h.older| == 4 witness Shelf([[], [], [], []], [[], [], [], []])

  /** The rule for one event: every sync counts what is seen, and what was
      counted before becomes the older. */
  ghost function Restock(h: Shelf, b: Books, s: Fs, e: Event): Shelf
    requires Possible(e)
  {
    match e
    case Perform(AppendTo(f, data)) =>
      if !(1 <= |data| <= MAX_PAYLOAD) then h
      else
        var moved := if s.dirty && Moves(s, data) then Shelf(b.live, h.counted) else h;
        if s.settings[f].sync then Shelf(b.live[f := b.live[f] + [data]], moved.counted) else moved
    case Perform(TouchAt(_)) => h.(counted := b.live)
    case Perform(FlushAt(_)) => Shelf(b.live, if s.dirty then b.live else h.older)
    case _ => h
  }

  ghost function Shelved(s: Fs, es: seq<Event>): Shelf
    requires AllPossible(es)
  {
    if |es| == 0 then Shelf([[], [], [], []], [[], [], [], []])
    else
      var front := es[..|es| - 1];
      Restock(Shelved(s, front), Ledger(s, front), History(s, front), es[|es| - 1])
  }

  ghost function NextOlder(s: Fs, j: Journal, d: Journal, o: Journal, e: Event): Journal
    requires Possible(e)
  {
    match e
    case Perform(AppendTo(f, data)) => OlderAfter(s, j, d, o, f, data)
    case Perform(FlushAt(_)) => if s.dirty then j else o
    case _ => o
  }

  lemma QuietBacked(s: Fs, j: Journal, d: Journal, o: Journal, op: Op)
    requires Legal(op) && Backed(s, j, d, o) && (op.TruncateFile? || op.TruncateEvery? || op.Load?)
    ensures Backed(Do(s, op).fs, Follow(s, j, op), d, o)
  {
    hide Backed;
    GrowsItself(j.log);
    BackedFrame(s, j, d, o, Do(s, op).fs, Follow(s, j, op));
  }

  lemma EventBacked(s: Fs, j: Journal, d: Journal, o: Journal, n: nat, b: Books, e: Event)
    requires Possible(e) && Booked(s, j, d, n, b) && Fit(s, j, b, e) && Backed(s, j, d, o)
    ensures Backed(Happen(s, e), NextLive(s, j, d, e), NextKept(s, j, d, e), NextOlder(s, j, d, o, e))
  {
    hide Booked, Backed, Live, Protocol, Working, Append, Touch, Flush, AfterAppend, AfterSync, OlderAfter;
    hide Reboot, Pristine, Roomy;
    hide Truncate, TruncateAll, BlockEnsure, Cut, CutAll, Coherent;
    BookedBasics(s, j, d, n, b);
    match e
    case Perform(AppendTo(f, data)) => BackedAny(s, j, d, o, f, data);
    case Perform(TouchAt(time)) => LiveIsCoherent(s, j); TouchWorks(s, time); BackedTouch(s, j, d, o, time);
    case Perform(FlushAt(time)) => BackedFlush(s, j, d, o, time);
    case Perform(op) => QuietBacked(s, j, d, o, op);
    case PowerLoss(config) => BackedReboot(s, j, d, o, config);
  }

  lemma BackedAny(s: Fs, j: Journal, d: Journal, o: Journal, f: nat, data: seq<byte>)
    requires Live(s, j) && Protocol(s) && Backed(s, j, d, o) && Working(s.card) && Roomy(s)
    requires s.header.generation < MAX32 - 1 && f < 4 && |data| <= 65528
    ensures Backed(Append(s, f, data).fs, AfterAppend(s, j, f, data), AfterSync(s, j, d, f, data),
            OlderAfter(s, j, d, o, f, data))
  {
    hide Live, Protocol, Backed, Working, Roomy, Allocate, Put, Fsync;
    if Admitted(|data|) { BackedAppend(s, j, d, o, f, data); }
  }

  lemma BookedBasics(s: Fs, j: Journal, d: Journal, n: nat, b: Books)
    requires Booked(s, j, d, n, b)
    ensures Live(s, j) && Protocol(s) && Working(s.card) && j.contents == b.live
    ensures !b.exposed ==> d.contents == b.saved
    ensures b.exposed ==> s.dirty
  {
    hide Live, Protocol, Working, Kept, Written, Lands, Leaves;
  }

  /** The contents of the two stored journals follow the shelf. */
  lemma EventRestocks(s: Fs, j: Journal, d: Journal, o: Journal, n: nat, b: Books, h: Shelf, e: Event)
    requires Possible(e) && Booked(s, j, d, n, b) && Fit(s, j, b, e) && d.contents == h.counted && o.contents == h.older
    ensures NextKept(s, j, d, e).contents == Restock(h, b, s, e).counted
    ensures NextOlder(s, j, d, o, e).contents == Restock(h, b, s, e).older
  {
    hide Booked, Live, Protocol, Working, AfterAppend, Roomy, Pristine, AfterSync, OlderAfter;
    BookedBasics(s, j, d, n, b);
    match e
    case Perform(AppendTo(f, data)) => AppendRestocks(s, j, d, o, b, h, f, data);
    case _ =>
  }

  lemma AppendRestocks(s: Fs, j: Journal, d: Journal, o: Journal, b: Books, h: Shelf, f: nat, data: seq<byte>)
    requires Live(s, j) && Roomy(s) && Working(s.card) && j.contents == b.live && f < 4 && |data| <= 65528
    requires d.contents == h.counted && o.contents == h.older
    ensures var h' := Restock(h, b, s, Perform(AppendTo(f, data)));
            AfterSync(s, j, d, f, data).contents == h'.counted && OlderAfter(s, j, d, o, f, data).contents == h'.older
  {
    hide Live, Roomy, Working, AfterAppend;
    if Admitted(|data|) { AcceptedAdds(s, j, f, data); }
  }

  /** An empty volume just formatted: both slots describe it. */
  ghost predicate Formatted(s: Fs) {
    Fresh(s) && Backed(s, EMPTY_JOURNAL, EMPTY_JOURNAL, EMPTY_JOURNAL)
  }

  /** Along every history the slot that is not current stays readable. */
  lemma {:induction false} HistoryIsBacked(s: Fs, es: seq<Event>) returns (j: Journal, d: Journal, o: Journal, n: nat)
    requires Formatted(s) && AllPossible(es) && AllAllowed(s, es)
    ensures Booked(History(s, es), j, d, n, Ledger(s, es)) && Backed(History(s, es), j, d, o)
    ensures d.contents == Shelved(s, es).counted && o.contents == Shelved(s, es).older
    ensures forall f :: 0 <= f < 4 ==> j.bumps[f] <= CutCount(es, f) && d.bumps[f] <= CutCount(es, f)
    decreases |es|
  {
    hide Booked, Backed, Happen, NextLive, NextKept, NextCount, NextOlder, Account, Restock;
    if |es| == 0 {
      j, d, o, n := EMPTY_JOURNAL, EMPTY_JOURNAL, EMPTY_JOURNAL, 0;
    } else {
      AllowedFront(s, es);
      var front, e := es[..|es| - 1], es[|es| - 1];
      var j0, d0, o0, n0 := HistoryIsBacked(s, front);
      var t, b := History(s, front), Ledger(s, front);
      AllowedIsFit(s, front, e, j0);
      EventBooked(t, j0, d0, n0, b, e);
      EventBacked(t, j0, d0, o0, n0, b, e);
      EventRestocks(t, j0, d0, o0, n0, b, Shelved(s, front), e);
      j, d := NextLive(t, j0, d0, e), NextKept(t, j0, d0, e);
      o, n := NextOlder(t, j0, d0, o0, e), NextCount(t, j0, n0, d0, e);
      forall f | 0 <= f < 4
        ensures j.bumps[f] <= CutCount(es, f) && d.bumps[f] <= CutCount(es, f)
      {
        EventCounts(t, j0, d0, e, f);
      }
    }
  }
}
