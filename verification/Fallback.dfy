/** A touch cut short: it rewrites the newest slot in place, and if that is torn
    start-up falls back to the older one. */
module Fallback {
  import opened Bytes
  import Crc
  import opened Header
  import opened Entry
  import opened Card
  import opened Fs
  import opened Cache
  import opened HeaderProtocol
  import opened Layout
  import opened Scan
  import opened ScanLog
  import opened Journal
  import opened LiveVolume
  import opened Runs
  import opened Incremental
  import opened Unsynced
  import opened Durable
  import opened Histories
  import opened Crash
  import opened Older

  // ----- starting -----

  /** Formatting leaves the same description in both slots. */
  lemma StartSlots(boot: Fs, wipe: bool, draws: seq<u16>)
    requires Begun(boot, wipe, draws)
    ensures var t := Initialize(boot, wipe, draws).fs;
            && |t.card.blocks| > 0 && SlotValid(Slot(t.card.blocks[0], 1 - t.headerIndex))
            && OtherHeader(t) == t.header.(generation := 0, crc := OtherHeader(t).crc)
  {
    hide Format, Newest, HeaderBytes, Splice, SlotValid, Slot, HeaderFrom, Crc.Crc16, HeaderBody;
    if !wipe { BlankIsNew(boot.card.blocks[0]); }
    var l := boot.(numberOfBlocks := |boot.card.blocks|, buffer := boot.card.blocks[0], card := Spent(boot.card));
    assert Initialize(boot, wipe, draws) == Format(l, draws);
    FormatProtocol(l, draws);
  }

  lemma BegunIsFormatted(boot: Fs, wipe: bool, draws: seq<u16>)
    requires Begun(boot, wipe, draws)
    ensures Formatted(Initialize(boot, wipe, draws).fs)
  {
    var s := Initialize(boot, wipe, draws).fs;
    StartIsLive(boot, wipe, draws);
    assert Tracks(s.header, EMPTY_JOURNAL);
    hide Initialize, Fresh, Live, Tracks, Slot, SlotValid, HeaderFrom, Carried, Begun;
    BegunIsBooked(boot, wipe, draws);
    StartSlots(boot, wipe, draws);
    TracksFrame(s.header, EMPTY_JOURNAL, OtherHeader(s));
    LiveCardCarried(s, EMPTY_JOURNAL);
    GrowsItself(EMPTY_JOURNAL.log);
  }

  // ----- a touch cut short -----

  /** The header a touch stores. */
  ghost function Touched(s: Fs, time: u32): Header {
    Seal(s.header.(time := time))
  }

  /** What any touch, whole or torn, leaves on the card. */
  lemma TouchLeavesCard(s: Fs, script: seq<Io>, time: u32)
    requires |s.card.blocks| > 0
    ensures var c := Touch(Facing(s, script), time).fs.card.blocks;
            && |c| == |s.card.blocks| && (forall b :: 0 < b < |c| ==> c[b] == s.card.blocks[b])
            && Slot(c[0], 1 - s.headerIndex) == Slot(s.card.blocks[0], 1 - s.headerIndex)
  {
    hide HeaderWrite, Slot;
    var p := Facing(s, script);
    TouchCard(p, time);
    OtherSlotSafe(p.(header := p.header.(time := time)));
  }

  lemma ComesBackAs(blocks: Blocks, i: nat, h: Header, contents: seq<Payloads>, config: Fs)
    requires |blocks| > 0 && i < 2 && Newest(blocks[0]) == i && h == HeaderFrom(Slot(blocks[0], i)) && Pristine(config)
    requires |contents| == 4
    requires forall f :: 0 <= f < 4 ==>
               InRange(blocks, CreateToken(h, f))
                   && Data(Remaining(Versions(h), blocks, CreateToken(h, f))) == contents[f]
    ensures ComesBack(blocks, config, h, contents)
  {
    hide HeaderFrom, Slot, Newest, Remaining, Initialize, InRange, Data;
    AdoptsSlot(blocks, i, config);
    NamesScanAlike(h, config.header.files);
    hide CreateToken, Versions, WithNames;
  }

  lemma NamesScanAlike(h: Header, names: Files)
    ensures Versions(WithNames(h, names)) == Versions(h)
    ensures forall f :: 0 <= f < 4 ==> CreateToken(WithNames(h, names), f) == CreateToken(h, f)
  {
  }

  /** The slot is as it was: every file reads as saved. */
  lemma TouchNotReached(s: Fs, d: Journal, saved: seq<Payloads>, c: Blocks, config: Fs)
    requires Protocol(s) && |saved| == 4 && Leaves(s, saved) && Tracks(Stored(s), d) && Pristine(config)
    requires |c| == |s.card.blocks| && forall b :: 0 < b < |c| ==> c[b] == s.card.blocks[b]
    requires Slot(c[0], 1 - s.headerIndex) == Slot(s.card.blocks[0], 1 - s.headerIndex)
    requires Slot(c[0], s.headerIndex) == Slot(s.card.blocks[0], s.headerIndex)
    ensures ComesBack(c, config, Stored(s), saved)
  {
    hide SlotValid, HeaderFrom, Slot, Tracks, Remaining, ComesBack, Data, Newest, InRange;
    var w := Stored(s);
    LeaderIsNewest(c[0], s.headerIndex, s.header.generation);
    forall f | 0 <= f < 4
      ensures InRange(c, CreateToken(w, f)) && Data(Remaining(Versions(w), c, CreateToken(w, f))) == saved[f]
    {
      SameScanElsewhere(w, d, f, s.card.blocks, c);
    }
    ComesBackAs(c, s.headerIndex, w, saved, config);
  }

  lemma SameScanElsewhere(w: Header, d: Journal, f: nat, a: Blocks, c: Blocks)
    requires Tracks(w, d) && f < 4 && InRange(a, CreateToken(w, f))
    requires |c| == |a| && forall b :: 0 < b < |c| ==> c[b] == a[b]
    ensures InRange(c, CreateToken(w, f))
    ensures Remaining(Versions(w), c, CreateToken(w, f)) == Remaining(Versions(w), a, CreateToken(w, f))
  {
    assert Describes(w.files[f], d, f);
    hide Tracks, Describes, Remaining, Final;
    DescribesBounds(w.files[f], d, f);
    ScanFrame(Versions(w), a, c, CreateToken(w, f));
  }

  /** The slot holds the new header: every file reads as what is on the card. */
  lemma TouchReached(s: Fs, j: Journal, n: nat, written: seq<Payloads>, time: u32, c: Blocks, config: Fs)
    requires Live(s, j) && Written(s, j, n) && Protocol(s) && Pristine(config)
    requires |written| == 4 && forall f :: 0 <= f < 4 ==> Lands(s, j, n, f, written[f])
    requires |c| == |s.card.blocks| && forall b :: 0 < b < |c| ==> c[b] == s.card.blocks[b]
    requires Slot(c[0], 1 - s.headerIndex) == Slot(s.card.blocks[0], 1 - s.headerIndex)
    requires Slot(c[0], s.headerIndex) == HeaderBytes(Touched(s, time))
    ensures ComesBack(c, config, Touched(s, time), written)
  {
    hide Live, Written, Slot, HeaderBytes, Tracks, Remaining, ComesBack, Data, Newest, InRange, Lands, Last;
    hide Part, Protocol;
    hide Bears, HeaderFrom, Touched, CreateToken, Versions;
    var h := Touched(s, time);
    ProtocolLeads(s);
    TouchedLeads(s, time, c);
    TouchedTracks(s, j, time);
    WrittenBound(s, j, n);
    WrittenBlocks(s, j, n);
    BearsElsewhere(s.card.blocks, c, Part(j.log, n));
    forall f | 0 <= f < 4
      ensures InRange(c, CreateToken(h, f)) && Data(Remaining(Versions(h), c, CreateToken(h, f))) == written[f]
    {
      TouchedReads(s, j, n, h, c, f, written[f]);
    }
    ComesBackAs(c, s.headerIndex, h, written, config);
  }

  lemma TouchedReads(s: Fs, j: Journal, n: nat, h: Header, c: Blocks, f: nat, p: Payloads)
    requires f < 4 && Lands(s, j, n, f, p) && h.files == s.header.files && Tracks(h, j) && Bears(c, Part(j.log, n))
    ensures InRange(c, CreateToken(h, f)) && Data(Remaining(Versions(h), c, CreateToken(h, f))) == p
  {
    hide Tracks, Bears, Remaining, Data, Landed;
    ScanLanded(c, h, j, n, f);
  }

  lemma TouchedTracks(s: Fs, j: Journal, time: u32)
    requires Live(s, j)
    ensures Tracks(Touched(s, time), j) && Touched(s, time).files == s.header.files
  {
    hide Tracks, Full, HeaderBody, Crc.Crc16;
    TracksFrame(s.header, j, Touched(s, time));
  }

  lemma TouchedLeads(s: Fs, time: u32, c: Blocks)
    requires Protocol(s) && |c| > 0
    requires Slot(c[0], 1 - s.headerIndex) == Slot(s.card.blocks[0], 1 - s.headerIndex)
    requires Slot(c[0], s.headerIndex) == HeaderBytes(Touched(s, time))
    ensures Newest(c[0]) == s.headerIndex && HeaderFrom(Slot(c[0], s.headerIndex)) == Touched(s, time)
  {
    hide SlotValid, HeaderFrom, HeaderBytes, HeaderBody, Crc.Crc16, Slot, Newest;
    SealedIsValid(s.header.(time := time));
    HeaderRoundTrip(Touched(s, time));
    LeaderIsNewest(c[0], s.headerIndex, s.header.generation);
  }

  lemma BearsElsewhere(a: Blocks, c: Blocks, log: Log)
    requires Bears(a, log) && |c| == |a| && forall b :: 0 < b < |c| ==> c[b] == a[b]
    ensures Bears(c, log)
  {
    hide Full;
  }

  /** The slot fails its checksum: every file reads as the older slot has it. */
  lemma TouchTorn(s: Fs, j: Journal, d: Journal, o: Journal, c: Blocks, config: Fs)
    requires Backed(s, j, d, o) && Pristine(config)
    requires |c| == |s.card.blocks| && forall b :: 0 < b < |c| ==> c[b] == s.card.blocks[b]
    requires Slot(c[0], 1 - s.headerIndex) == Slot(s.card.blocks[0], 1 - s.headerIndex)
    requires !SlotValid(Slot(c[0], s.headerIndex))
    ensures ComesBack(c, config, OtherHeader(s), o.contents)
  {
    hide SlotValid, HeaderFrom, Slot, Tracks, Carried, ComesBack, Grows;
    SameCarried(s.card.blocks, c, o);
    ComesBackFrom(c, 1 - s.headerIndex, OtherHeader(s), o, config);
  }

  /** A touch, or the touch inside a flush, cut short at any transfer after any
      history. If its slot still holds the old header, all files read as saved;
      if it holds the new one, they read as what is on the card; if it fails its
      checksum, they read as what the other slot's header counts. */
  lemma TouchCutShort(s: Fs, es: seq<Event>, script: seq<Io>, time: u32, config: Fs)
    requires Formatted(s) && AllPossible(es) && AllAllowed(s, es) && Pristine(config)
    ensures var t := History(s, es);
            var p := Touch(Facing(t, script), time);
            var c := p.fs.card.blocks;
            && |t.card.blocks| > 0 && |c| > 0 && (!p.ok ==> Flush(Facing(t, script), time) == p)
            && var slot := Slot(c[0], t.headerIndex);
            && (slot == Slot(t.card.blocks[0], t.headerIndex) ==> ComesBack(c, config, Stored(t), Ledger(s, es).saved))
            && (slot == HeaderBytes(Touched(t, time)) ==> ComesBack(c, config, Touched(t, time), Ledger(s, es).written))
            && (!SlotValid(slot) ==> ComesBack(c, config, OtherHeader(t), Shelved(s, es).older))
  {
    hide Formatted, Booked, Backed, History, Ledger, Shelved, Touch, ComesBack, Slot, SlotValid, Stored;
    hide OtherHeader, Pristine;
    var j, d, o, n := HistoryIsBacked(s, es);
    TouchCut(History(s, es), j, d, o, n, Ledger(s, es), script, time, config);
  }

  lemma TouchCut(
    s: Fs, j: Journal, d: Journal, o: Journal, n: nat, b: Books, script: seq<Io>, time: u32, config: Fs)
    requires Booked(s, j, d, n, b) && Backed(s, j, d, o) && Pristine(config)
    ensures var c := Touch(Facing(s, script), time).fs.card.blocks;
            && |s.card.blocks| > 0 && |c| > 0
            && var slot := Slot(c[0], s.headerIndex);
            && (slot == Slot(s.card.blocks[0], s.headerIndex) ==> ComesBack(c, config, Stored(s), b.saved))
            && (slot == HeaderBytes(Touched(s, time)) ==> ComesBack(c, config, Touched(s, time), b.written))
            && (!SlotValid(slot) ==> ComesBack(c, config, OtherHeader(s), o.contents))
  {
    BackedStored(s, j, d, o);
    hide Live, Backed, Protocol, Written, Lands, Leaves, Kept, Working, Touch, ComesBack, Slot, SlotValid;
    hide Stored, OtherHeader;
    hide HeaderBytes, Touched, Pristine, Tracks;
    var c := Touch(Facing(s, script), time).fs.card.blocks;
    TouchLeavesCard(s, script, time);
    var slot := Slot(c[0], s.headerIndex);
    if slot == Slot(s.card.blocks[0], s.headerIndex) { TouchNotReached(s, d, b.saved, c, config); }
    if slot == HeaderBytes(Touched(s, time)) { TouchReached(s, j, n, b.written, time, c, config); }
    if !SlotValid(slot) { TouchTorn(s, j, d, o, c, config); }
  }

  lemma BackedStored(s: Fs, j: Journal, d: Journal, o: Journal)
    requires Backed(s, j, d, o)
    ensures |s.card.blocks| > 0 && Tracks(Stored(s), d)
  {
  }

  // ----- when acknowledged appends survive -----

  /** Does this event write a header into the slot that was not current? */
  ghost predicate Advances(s: Fs, e: Event)
    requires Possible(e)
  {
    match e
    case Perform(AppendTo(f, data)) =>
      1 <= |data| <= MAX_PAYLOAD && (s.settings[f].sync || (s.dirty && Moves(s, data)))
    case Perform(FlushAt(_)) => s.dirty
    case _ => false
  }

  predicate Begins(p: Payloads, q: Payloads) {
    p <= q
  }

  /** The payloads `p` of file `f` are seen, on the card, saved and counted. */
  ghost predicate Secure(b: Books, h: Shelf, f: nat, p: Payloads)
    requires f < 4
  {
    Begins(p, b.live[f]) && Begins(p, b.written[f]) && Begins(p, b.saved[f]) && Begins(p, h.counted[f])
  }

  lemma StaysSecure(b: Books, h: Shelf, s: Fs, e: Event, f: nat, p: Payloads)
    requires Possible(e) && f < 4 && Secure(b, h, f, p) && !(e.Perform? && Cuts(e.op, f))
    ensures Secure(Account(b, s, e), Restock(h, b, s, e), f, p)
    ensures Advances(s, e) ==> Begins(p, Restock(h, b, s, e).older[f])
    ensures !Advances(s, e) ==> Restock(h, b, s, e).older == h.older
  {
    match e
    case Perform(AppendTo(g, data)) => BeginsMore(p, b.live[f], data);
    case _ =>
  }

  lemma BeginsMore(p: Payloads, q: Payloads, data: seq<byte>)
    requires Begins(p, q)
    ensures Begins(p, q + [data])
  {
  }

  /** Whether some event of a history from its `k`-th on advances the slots. */
  ghost predicate AdvancedSince(s: Fs, es: seq<Event>, k: nat)
    requires AllPossible(es) && k <= |es|
  {
    exists i :: k <= i < |es| && Advances(History(s, es[..i]), es[i])
  }

  lemma AdvancedFront(s: Fs, es: seq<Event>, k: nat)
    requires AllPossible(es) && k < |es| && AllPossible(es[..|es| - 1])
    ensures AdvancedSince(s, es, k)
       <==> AdvancedSince(s, es[..|es| - 1], k) || Advances(History(s, es[..|es| - 1]), es[|es| - 1])
  {
    hide Advances, History;
    var front := es[..|es| - 1];
    assert forall i :: 0 <= i < |front| ==> front[i] == es[i] && front[..i] == es[..i];
    if AdvancedSince(s, es, k) {
      var i :| k <= i < |es| && Advances(History(s, es[..i]), es[i]);
      if i < |front| { assert Advances(History(s, front[..i]), front[i]); }
    }
    if AdvancedSince(s, front, k) {
      var i :| k <= i < |front| && Advances(History(s, front[..i]), front[i]);
      assert Advances(History(s, es[..i]), es[i]);
    }
    if Advances(History(s, front), es[|es| - 1]) { assert es[..|es| - 1] == front; }
  }

  /** What was secure after the first `k` events stays so, as long as its file is
      not truncated. The older slot has it as well once another event has
      advanced the slots, and until then is what it was. */
  lemma {:induction false} SecureStays(s: Fs, es: seq<Event>, k: nat, f: nat, p: Payloads)
    requires AllPossible(es) && k <= |es| && f < 4 && AllPossible(es[..k])
    requires Secure(Ledger(s, es[..k]), Shelved(s, es[..k]), f, p)
    requires forall i :: k <= i < |es| ==> !(es[i].Perform? && Cuts(es[i].op, f))
    ensures Secure(Ledger(s, es), Shelved(s, es), f, p)
    ensures AdvancedSince(s, es, k) ==> Begins(p, Shelved(s, es).older[f])
    ensures !AdvancedSince(s, es, k) ==> Shelved(s, es).older == Shelved(s, es[..k]).older
    decreases |es|
  {
    hide Secure, Account, Restock, Advances, Happen, Begins;
    if k == |es| {
      assert es[..k] == es;
    } else {
      var front, e := es[..|es| - 1], es[|es| - 1];
      assert front[..k] == es[..k];
      SecureStays(s, front, k, f, p);
      AdvancedFront(s, es, k);
      hide AdvancedSince;
      StaysOrAdvances(Ledger(s, front), Shelved(s, front), History(s, front), e, f, p);
    }
  }

  lemma StaysOrAdvances(b: Books, h: Shelf, s: Fs, e: Event, f: nat, p: Payloads)
    requires Possible(e) && f < 4 && Secure(b, h, f, p) && !(e.Perform? && Cuts(e.op, f))
    ensures Secure(Account(b, s, e), Restock(h, b, s, e), f, p)
    ensures Advances(s, e) || Begins(p, h.older[f]) ==> Begins(p, Restock(h, b, s, e).older[f])
    ensures !Advances(s, e) ==> Restock(h, b, s, e).older == h.older
  {
    hide Secure, Account, Restock, Advances, Begins;
    StaysSecure(b, h, s, e, f, p);
  }

  /** An append to a sync file has succeeded and its file was not truncated
      since: the payload is seen and saved. A touch that is torn and fails its
      checksum leaves it readable if the slots have advanced since; otherwise it
      leaves what was counted just before the append's own sync. */
  lemma AcknowledgedSurvives(s: Fs, es: seq<Event>, k: nat, f: nat, data: seq<byte>)
    requires AllPossible(es) && k < |es| && f < 4 && 1 <= |data| <= MAX_PAYLOAD
    requires AllPossible(es[..k]) && AllPossible(es[..k + 1])
    requires es[k] == Perform(AppendTo(f, data)) && History(s, es[..k]).settings[f].sync
    requires forall i :: k < i < |es| ==> !(es[i].Perform? && Cuts(es[i].op, f))
    ensures var p := Ledger(s, es[..k]).live[f] + [data];
            && Secure(Ledger(s, es), Shelved(s, es), f, p)
            && (AdvancedSince(s, es, k + 1) ==> Begins(p, Shelved(s, es).older[f]))
            && (!AdvancedSince(s, es, k + 1) ==>
                 var t := History(s, es[..k]);
                 Shelved(s, es).older
                 == if t.dirty && Moves(t, data) then Ledger(s, es[..k]).live else Shelved(s, es[..k]).counted)
  {
    var now := es[..k + 1];
    assert now[..|now| - 1] == es[..k] && now[|now| - 1] == es[k];
    hide Happen;
    SecureStays(s, es, k + 1, f, Ledger(s, es[..k]).live[f] + [data]);
  }

  // ----- at one input -----

  /** A slot of which one byte in front of the checksum is changed fails it. */
  lemma OneByteTears(b: seq<byte>, i: nat, x: byte)
    requires |b| == HEADER_SIZE && SlotValid(b) && i < 135 && x != b[i]
    ensures !SlotValid(b[i := x])
  {
    hide Crc.Crc16;
    var a, c := b[..135], b[i := x][..135];
    assert a == a[..i] + [b[i]] + a[i + 1..] && c == a[..i] + [x] + a[i + 1..];
    Crc.OneByteChanges(HEADER_SEED, a[..i], b[i], x, a[i + 1..]);
    assert U16At(b[i := x], 135) == U16At(b, 135);
  }

  /** The lowest byte of the time in a packed header. */
  lemma TimeByte(h: Header)
    ensures HeaderBytes(h)[11] == h.time % 0x100
  {
    HeaderRoundTrip(h);
    StoredTimeByte(HeaderBytes(h));
  }

  lemma StoredTimeByte(b: seq<byte>)
    requires |b| == HEADER_SIZE
    ensures b[11] == HeaderFrom(b).time % 0x100
  {
    assert HeaderFrom(b).time == U32At(b, 11);
  }

  /** Of a touch only the lowest byte of the time reaches the card. */
  ghost function OnlyTime(i: nat): seq<bool> {
    seq(512, k => k == i * HEADER_SIZE + 11)
  }

  lemma TornTime(s: Fs, time: u32)
    requires |s.card.blocks| > 0 && SlotValid(Slot(s.card.blocks[0], s.headerIndex))
             && Stored(s).time % 0x100 != time % 0x100
    ensures var c := Touch(Facing(s, [Pass, Fail(OnlyTime(s.headerIndex))]), time).fs.card.blocks;
            |c| > 0 && !SlotValid(Slot(c[0], s.headerIndex))
  {
    var i, old_, h := s.headerIndex, s.card.blocks[0], Touched(s, time);
    var p := Facing(s, [Pass, Fail(OnlyTime(i))]);
    var image := Splice(old_, i * HEADER_SIZE, HeaderBytes(h));
    TornWrite(s, time);
    hide Touch, HeaderBytes, SlotValid, HeaderFrom, Splice, Mix, Touched;
    var c := Touch(p, time).fs.card.blocks[0];
    TimeByte(h);
    TouchedTime(s, time);
    StoredTimeByte(Slot(old_, i));
    MixedSlot(old_, image, i, HeaderBytes(h));
    OneByteTears(Slot(old_, i), 11, HeaderBytes(h)[11]);
  }

  lemma TouchedTime(s: Fs, time: u32)
    ensures Touched(s, time).time == time
  {
  }

  lemma TornWrite(s: Fs, time: u32)
    requires |s.card.blocks| > 0
    ensures var i, old_ := s.headerIndex, s.card.blocks[0];
            var c := Touch(Facing(s, [Pass, Fail(OnlyTime(i))]), time).fs.card.blocks;
            |c| > 0 && c[0] == Mix(old_, Splice(old_, i * HEADER_SIZE, HeaderBytes(Touched(s, time))), OnlyTime(i))
  {
    hide HeaderBytes, Splice, Seal, Mix, OnlyTime;
  }

  lemma MixedSlot(old_: Block, image: Block, i: nat, data: seq<byte>)
    requires i < 2 && |data| == HEADER_SIZE && image == Splice(old_, i * HEADER_SIZE, data)
    ensures Slot(Mix(old_, image, OnlyTime(i)), i) == Slot(old_, i)[11 := data[11]]
  {
    var c, at := Mix(old_, image, OnlyTime(i)), i * HEADER_SIZE;
    assert image[at..at + HEADER_SIZE][11] == data[11];
    assert image[at + 11] == data[11];
    assert c == old_[at + 11 := image[at + 11]];
  }

  /** A sync file's append returns true; later a touch is torn. Start-up trusts
      the header from before the append, and the payload is gone. */
  lemma TornTouchLosesAppend(boot: Fs, wipe: bool, draws: seq<u16>, f: nat, data: seq<byte>, time: u32, config: Fs)
    requires Begun(boot, wipe, draws) && f < 4 && 1 <= |data| <= MAX_PAYLOAD && Pristine(config)
    requires var s := Initialize(boot, wipe, draws).fs;
             Roomy(s) && s.settings[f].sync && s.header.time % 0x100 != time % 0x100
    ensures var s := Initialize(boot, wipe, draws).fs;
            var t := Append(s, f, data).fs;
            var c := Touch(Facing(t, [Pass, Fail(OnlyTime(t.headerIndex))]), time).fs.card.blocks;
            && Append(s, f, data).ok && Reads(t, f, [data])
            && |t.card.blocks| > 0 && ComesBack(c, config, OtherHeader(t), [[], [], [], []])
  {
    assert |draws| == 4;
    BegunIsFormatted(boot, wipe, draws);
    BegunIsBooked(boot, wipe, draws);
    StartIsLive(boot, wipe, draws);
    hide Initialize, Begun, Formatted, Live, Protocol, Stored, Append, Reads, ComesBack, Roomy, Pristine, Fresh;
    LosesFirst(Initialize(boot, wipe, draws).fs, f, data, time, config);
  }

  lemma LosesFirst(s: Fs, f: nat, data: seq<byte>, time: u32, config: Fs)
    requires Formatted(s) && s.header.generation == 1 && !s.dirty && Roomy(s) && Pristine(config)
    requires f < 4 && 1 <= |data| <= MAX_PAYLOAD && s.settings[f].sync && s.header.time % 0x100 != time % 0x100
    ensures var t := Append(s, f, data).fs;
            var c := Touch(Facing(t, [Pass, Fail(OnlyTime(t.headerIndex))]), time).fs.card.blocks;
            && Append(s, f, data).ok && Reads(t, f, [data])
            && |t.card.blocks| > 0 && ComesBack(c, config, OtherHeader(t), [[], [], [], []])
  {
    hide Booked, Backed, Append, Reads, ComesBack, Roomy, Pristine, AfterAppend, Stored, OtherHeader, Slot;
    hide SlotValid, OnlyTime;
    hide Live, Protocol, Touch;
    var k := AfterAppend(s, EMPTY_JOURNAL, f, data);
    var b := Safe([[], [], [], []][f := [data]]);
    FirstSynced(s, f, data);
    var t := Append(s, f, data).fs;
    TornTime(t, time);
    TouchCut(t, k, k, EMPTY_JOURNAL, |Last(k.log)|, b, [Pass, Fail(OnlyTime(t.headerIndex))], time, config);
  }

  lemma FirstSynced(s: Fs, f: nat, data: seq<byte>)
    requires Formatted(s) && s.header.generation == 1 && !s.dirty && Roomy(s)
    requires f < 4 && 1 <= |data| <= MAX_PAYLOAD && s.settings[f].sync
    ensures var t, k := Append(s, f, data).fs, AfterAppend(s, EMPTY_JOURNAL, f, data);
            && Append(s, f, data).ok && Reads(t, f, [data])
            && Booked(t, k, k, |Last(k.log)|, Safe([[], [], [], []][f := [data]])) && Backed(t, k, k, EMPTY_JOURNAL)
            && |t.card.blocks| > 0 && SlotValid(Slot(t.card.blocks[0], t.headerIndex))
                && Stored(t).time == s.header.time
  {
    hide Booked, Backed, Append, Reads, Roomy, AfterAppend, Stored, Slot, SlotValid, Live, Protocol, Working, Last;
    var b0, b, k := Safe([[], [], [], []]), Safe([[], [], [], []][f := [data]]), AfterAppend(s, EMPTY_JOURNAL, f, data);
    BookedBasics(s, EMPTY_JOURNAL, EMPTY_JOURNAL, 0, b0);
    AppendAccepts(s, EMPTY_JOURNAL, f, data);
    FirstBooks(f, data);
    SyncAppendBooked(s, EMPTY_JOURNAL, EMPTY_JOURNAL, 0, b0, f, data);
    FirstBacked(s, f, data);
    BookedReadsLive(Append(s, f, data).fs, k, k, |Last(k.log)|, b, f);
    SyncedTime(s, EMPTY_JOURNAL, f, data);
  }

  lemma FirstBooks(f: nat, data: seq<byte>)
    requires f < 4
    ensures var b := Safe([[], [], [], []]);
            Safe(b.live[f := b.live[f] + [data]]) == Safe([[], [], [], []][f := [data]])
            && Safe([[], [], [], []][f := [data]]).live[f] == [data]
  {
    var none: seq<Payloads> := [[], [], [], []];
    assert none[f] + [data] == [data];
  }

  lemma FirstBacked(s: Fs, f: nat, data: seq<byte>)
    requires Live(s, EMPTY_JOURNAL) && Protocol(s) && Backed(s, EMPTY_JOURNAL, EMPTY_JOURNAL, EMPTY_JOURNAL)
    requires Working(s.card) && Roomy(s) && s.header.generation == 1 && !s.dirty
    requires f < 4 && 1 <= |data| <= MAX_PAYLOAD && s.settings[f].sync
    ensures var k := AfterAppend(s, EMPTY_JOURNAL, f, data);
            Backed(Append(s, f, data).fs, k, k, EMPTY_JOURNAL)
  {
    hide Live, Protocol, Backed, Working, Roomy, Append, AfterAppend;
    BackedAppend(s, EMPTY_JOURNAL, EMPTY_JOURNAL, EMPTY_JOURNAL, f, data);
  }

  /** A sync file's append leaves its header in the current slot, with the time it had. */
  lemma SyncedTime(s: Fs, j: Journal, f: nat, data: seq<byte>)
    requires Live(s, j) && Protocol(s) && Working(s.card) && Roomy(s) && s.header.generation < MAX32 - 1
    requires f < 4 && 1 <= |data| <= MAX_PAYLOAD && s.settings[f].sync
    ensures var t := Append(s, f, data).fs;
            |t.card.blocks| > 0 && SlotValid(Slot(t.card.blocks[0], t.headerIndex)) && Stored(t).time == s.header.time
  {
    hide Live, Protocol, Working, Roomy, Allocate, Put, Fsync, Stored, Slot, SlotValid, Coherent, AfterAppend;
    AllocateAccepts(s, j, f, ENTRY_SIZE + |data|);
    LiveAllocate(s, j, f, ENTRY_SIZE + |data|);
    LiveBeforeSync(s, j, f, data);
    ProtocolBeforeSync(s, j, f, data);
    var a := Allocate(s, f, ENTRY_SIZE + |data|).fs;
    var p := Put(a, f, data);
    PutAccepts(a, f, data);
    PutFacts(a, f, data);
    PutTime(a, f, data);
    StoresAll(p);
  }

  lemma PutTime(s: Fs, f: nat, data: seq<byte>)
    requires f < 4 && 1 <= |data| <= MAX_PAYLOAD && s.header.offset + ENTRY_SIZE + |data| <= 512
    ensures Put(s, f, data).header.time == s.header.time
  {
    hide Splice, RecBytes;
  }

  lemma StoresAll(p: Fs)
    requires Coherent(p) && Protocol(p) && p.dirty && Fsync(p).ok && p.header.generation < MAX32
    ensures var t := Fsync(p).fs;
            |t.card.blocks| > 0 && SlotValid(Slot(t.card.blocks[0], t.headerIndex)) && Stored(t).time == p.header.time
  {
    FsyncProtocol(p);
    hide Fsync, Slot, SlotValid, HeaderFrom;
  }

  lemma BookedReadsLive(s: Fs, j: Journal, d: Journal, n: nat, b: Books, f: nat)
    requires Booked(s, j, d, n, b) && f < 4
    ensures Reads(s, f, b.live[f])
  {
    hide Live, Protocol, Leaves, Lands, Written, Kept, Working, Remaining, Data, ViewBlocks;
    LiveIsCoherent(s, j);
    LiveReads(s, j, f);
  }
}
