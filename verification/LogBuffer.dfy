/** The record buffer of `fkfs_log.cpp`, stacked on appends. */
module LogBuffer {
  import opened Bytes
  import opened Entry
  import opened Card
  import Fs
  import opened Cache
  import opened Layout
  import opened Journal
  import opened LiveVolume
  import opened FileSystem

  /** The bytes of some payloads, one after the other. */
  function Flat(p: Payloads): seq<byte> {
    if |p| == 0 then [] else Flat(p[..|p| - 1]) + p[|p| - 1]
  }

  lemma FlatAdds(p: Payloads, d: seq<byte>)
    ensures Flat(p + [d]) == Flat(p) + d
  {
    assert (p + [d])[..|p|] == p;
  }

  lemma FlatNone()
    ensures Flat([]) == []
  {
  }

  lemma Regroup(a: seq<byte>, b: seq<byte>, c: seq<byte>, h: seq<byte>, d: seq<byte>)
    requires a + b == h + d
    ensures a + (b + c) == h + (d + c)
  {
    Reassociate(a, b, c);
    Reassociate(h, d, c);
  }

  /** The record `data` went whole behind the held bytes: they are held together, or were flushed
      together as one entry. */
  ghost predicate InOneEntry(data: seq<byte>, held: seq<byte>, sofar: Payloads, held': seq<byte>, flushed: Payloads) {
    (flushed == sofar && held' == held + data) || (flushed == sofar + [held + data] && held' == [])
  }

  /** Copying the next `copy` bytes of `data` to the end of the stream. */
  lemma Consume(was: seq<byte>, before: seq<byte>, base: seq<byte>, held: seq<byte>, data: seq<byte>, n: nat, copy: nat)
    requires n + copy <= |data| && was + before == base + (held + data[..n])
    ensures was + (before + data[n..][..copy]) == base + (held + data[..n + copy])
    ensures data[n..][copy..] == data[n + copy..]
  {
    var c := data[n..][..copy];
    Regroup(was, before, c, base, held + data[..n]);
    assert data[..n] + c == data[..n + copy];
    assert (held + data[..n]) + c == held + (data[..n] + c);
  }

  /** File `f` holds in `k` what it held in `j`, then `p`; the others are unchanged. */
  ghost predicate Extends(j: Journal, k: Journal, f: nat, p: Payloads)
    requires f < 4
  {
    k.contents == j.contents[f := j.contents[f] + p]
  }

  lemma ExtendsNone(j: Journal, f: nat)
    requires f < 4
    ensures Extends(j, j, f, [])
  {
    assert j.contents[f] + [] == j.contents[f];
  }

  lemma ExtendsMore(j: Journal, k: Journal, k': Journal, f: nat, p: Payloads, q: Payloads)
    requires f < 4 && Extends(j, k, f, p) && Extends(k, k', f, q)
    ensures Extends(j, k', f, p + q)
  {
    Reassociate(j.contents[f], p, q);
  }

  /** An entry that is in the file although its append reported failure. */
  function Extra(twice: bool, held: seq<byte>): Payloads {
    if twice then [held] else []
  }

  /** A flush of `held` ended in failure; `twice` tells whether the file took the bytes nevertheless. */
  ghost predicate FailedFlush(s: Fs.Fs, t: Fs.Fs, f: nat, held: seq<byte>, twice: bool) {
    f < 4 && |held| <= MAX_PAYLOAD && Fs.Append(s, f, held) == Fs.Outcome(t, false) && twice == Took(s, f, held)
  }

  /** The volume is live with room for `n` more block moves. */
  ghost predicate Ample(s: Fs.Fs, j: Journal, n: nat) {
    Live(s, j) && s.header.block + n < s.numberOfBlocks - 2
  }

  lemma AmpleLess(s: Fs.Fs, j: Journal, m: nat, n: nat)
    requires Ample(s, j, m) && n <= m
    ensures Ample(s, j, n) && Live(s, j)
  {
    hide Live;
  }

  /** The journal after an append to file `f`, when the volume was live. */
  lemma AmpleAppend(s: Fs.Fs, j: Journal, f: nat, data: seq<byte>, n: nat)
    requires Ample(s, j, n + 1) && f < 4 && |data| <= 65528
    ensures Ample(Fs.Append(s, f, data).fs, AfterAppend(s, j, f, data), n)
    ensures Extends(j, AfterAppend(s, j, f, data), f, if Took(s, f, data) then [data] else [])
  {
    LiveIsCoherent(s, j);
    hide Live, Fs.Append, Fs.Allocate, Coherent;
    LiveAppend(s, j, f, data);
    AppendBlock(s, j, f, data);
    ExtendsNone(j, f);
  }

  /** Only a sync file's append can take its payload and still report failure. */
  lemma TakenFailsInSync(s: Fs.Fs, f: nat, data: seq<byte>)
    requires f < 4 && |data| <= 65528
    ensures Fs.Append(s, f, data).ok ==> Took(s, f, data)
    ensures Took(s, f, data) && !Fs.Append(s, f, data).ok ==> s.settings[f].sync
  {
    hide Fs.Allocate, Fs.Fsync, Fs.Put;
    AppendSettings(s, f, data);
    if Took(s, f, data) { PutKeeps(Fs.Allocate(s, f, ENTRY_SIZE + |data|).fs, f, data); }
  }

  // ----- the stream of one file -----

  lemma {:induction false} FlatConcat(p: Payloads, q: Payloads)
    ensures Flat(p + q) == Flat(p) + Flat(q)
    decreases |q|
  {
    if |q| == 0 {
      assert p + q == p;
    } else {
      var front, d := q[..|q| - 1], q[|q| - 1];
      FlatConcat(p, front);
      assert p + q == (p + front) + [d];
      FlatAdds(p + front, d);
      Reassociate(Flat(p), Flat(front), d);
    }
  }

  /** The file's own bytes followed by the held ones are the stream accepted so
      far, unless an entry was taken that is still held. */
  lemma StreamConserved(
    old_: Payloads, new_: Payloads, flushed: Payloads, twice: bool, held: seq<byte>, stream: seq<byte>)
    requires new_ == old_ + (flushed + Extra(twice, held)) && Flat(flushed) + held == stream && (twice ==> |held| > 0)
    ensures Flat(new_) + held == Flat(old_) + stream <==> !twice
  {
    FlatConcat(old_, flushed + Extra(twice, held));
    FlatConcat(flushed, Extra(twice, held));
    FlatNone();
    FlatAdds([], held);
    assert [] + [held] == [held];
    var a, b := Flat(old_), Flat(flushed);
    if twice {
      assert |Flat(new_) + held| == |a| + |b| + |held| + |held|;
      assert |a + stream| == |a| + |b| + |held|;
    } else {
      assert Flat(new_) == a + b;
      Reassociate(a, b, held);
    }
  }

  /** What one flush does to the stream, on the file's own contents: it is
      conserved if and only if the flush succeeded or the file took nothing. A
      file that is not a sync file never holds bytes twice. */
  lemma FlushConserves(s: Fs.Fs, j: Journal, f: nat, held: seq<byte>)
    requires Live(s, j) && Roomy(s) && f < 4 && |held| <= MAX_PAYLOAD
    ensures var o, k := Fs.Append(s, f, held), AfterAppend(s, j, f, held);
            && (Flat(k.contents[f]) + (if o.ok then [] else held) == Flat(j.contents[f]) + held
                <==> o.ok || !Took(s, f, held))
            && (!s.settings[f].sync ==> (o.ok <==> Took(s, f, held)))
  {
    hide Live, Fs.Append, Fs.Allocate, Roomy, Flat;
    TakenFailsInSync(s, f, held);
    FlatAdds(j.contents[f], held);
    var a := Flat(j.contents[f]);
    assert a + held + [] == a + held;
    if Took(s, f, held) && !Fs.Append(s, f, held).ok {
      assert |a + held + held| == |a| + |held| + |held|;
    }
  }

  /** The same filesystem with a device that will refuse the next write. */
  ghost function AboutToFail(s: Fs.Fs): Fs.Fs {
    s.(card := Card(s.card.blocks, (if s.cached == s.header.block then [] else [Pass]) + [Fail([])]))
  }

  lemma FailingSync(s: Fs.Fs, j: Journal, f: nat, held: seq<byte>)
    requires Live(s, j) && Roomy(s) && !s.dirty && f < 4 && s.settings[f].sync
    requires 1 <= |held| && s.header.offset + ENTRY_SIZE + |held| <= 512
    ensures var u := AboutToFail(s);
            Live(u, j) && Roomy(u) && Took(u, f, held) && !Fs.Append(u, f, held).ok
                && Working(Fs.Append(u, f, held).fs.card)
            && Fs.Append(u, f, held).fs.header.block == s.header.block
  {
    var u := AboutToFail(s);
    AboutToFailIs(s);
    hide Live, Fs.Arrive, Fs.Allocate, Fs.Fsync, Fs.Put, AboutToFail, View;
    LiveBlocks(s, j);
    SameLive(s, j, u);
    LiveAllocate(u, j, f, ENTRY_SIZE + |held|);
    FailingArrival(s);
    AppendSettings(u, f, held);
    var a := Fs.Arrive(u, false).fs;
    PutKeeps(a, f, held);
    RefusedSync(Fs.Put(a, f, held));
  }

  lemma AboutToFailIs(s: Fs.Fs)
    ensures AboutToFail(s) == s.(card := AboutToFail(s).card) && AboutToFail(s).card.blocks == s.card.blocks
  {
  }

  lemma FailingArrival(s: Fs.Fs)
    requires s.header.block < |s.card.blocks|
    ensures var a := Fs.Arrive(AboutToFail(s), false);
            a.ok && a.fs.card == Card(s.card.blocks, [Fail([])]) && a.fs.header == s.header
  {
  }

  lemma RefusedSync(s: Fs.Fs)
    requires s.dirty && s.card.script == [Fail([])]
    ensures !Fs.Fsync(s).ok && Working(Fs.Fsync(s).fs.card) && Fs.Fsync(s).fs.header == s.header
  {
    hide Mix;
  }

  lemma LiveBlocks(s: Fs.Fs, j: Journal)
    requires Live(s, j)
    ensures 8000 <= s.header.block < |s.card.blocks|
  {
  }

  lemma SameLive(s: Fs.Fs, j: Journal, u: Fs.Fs)
    requires Live(s, j) && u == s.(card := u.card) && u.card.blocks == s.card.blocks
    ensures Live(u, j)
  {
    hide Tracks, Full;
    assert forall b :: 0 <= b < |s.card.blocks| ==> View(u, b) == View(s, b);
  }

  /** A sync file, a clean cache and room in the block: if the device refuses
      the data write of the sync, the bytes are in the file and still held, and
      the retry, which succeeds, puts them there a second time. */
  lemma RetryWritesTwice(s: Fs.Fs, j: Journal, f: nat, held: seq<byte>)
    requires Live(s, j) && Roomy(s) && !s.dirty && f < 4 && s.settings[f].sync
    requires 1 <= |held| && s.header.offset + ENTRY_SIZE + |held| <= 512
    ensures var first := Fs.Append(AboutToFail(s), f, held);
            var k := AfterAppend(AboutToFail(s), j, f, held);
            && !first.ok && k.contents[f] == j.contents[f] + [held]
            && Fs.Append(first.fs, f, held).ok
            && AfterAppend(first.fs, k, f, held).contents[f] == j.contents[f] + [held] + [held]
  {
    hide Live, Fs.Append, Fs.Allocate, Roomy, Working;
    var u := AboutToFail(s);
    FailingSync(s, j, f, held);
    LiveAppend(u, j, f, held);
    var t, k := Fs.Append(u, f, held).fs, AfterAppend(u, j, f, held);
    StillRoomy(s, u, j, f, held);
    AppendAccepts(t, k, f, held);
    TakenFailsInSync(t, f, held);
  }

  lemma StillRoomy(s: Fs.Fs, u: Fs.Fs, j: Journal, f: nat, held: seq<byte>)
    requires Live(u, j) && Roomy(u) && f < 4 && |held| <= 65528
             && Fs.Append(u, f, held).fs.header.block == u.header.block
    ensures Roomy(Fs.Append(u, f, held).fs)
  {
    hide Live, Fs.Append;
    AppendBlock(u, j, f, held);
  }

  /** On a volume that was live with ample room, the file has grown by what was
      flushed and, if an entry was taken whose append failed, by that. Its own
      bytes followed by the held ones are the stream so far if and only if there
      was no such entry. */
  ghost predicate Conserves(
    s: Fs.Fs, t: Fs.Fs, j: Journal, k: Journal, f: nat, flushed: Payloads, twice: bool, held: seq<byte>,
        stream: seq<byte>,
    n: nat)
    requires f < 4
  {
    Ample(s, j, n) ==>
      && Live(t, k) && Extends(j, k, f, flushed + Extra(twice, held))
      && (Flat(k.contents[f]) + held == Flat(j.contents[f]) + stream <==> !twice)
  }

  lemma Finished(
    s: Fs.Fs, t: Fs.Fs, j: Journal, k: Journal, f: nat, flushed: Payloads, twice: bool, held: seq<byte>,
        stream: seq<byte>,
    n: nat)
    requires f < 4 && Flat(flushed) + held == stream && (twice ==> |held| > 0)
    requires Ample(s, j, n) ==> Live(t, k) && Extends(j, k, f, flushed + Extra(twice, held))
    ensures Conserves(s, t, j, k, f, flushed, twice, held, stream, n)
  {
    hide Live, Flat, Ample, Extra;
    if Ample(s, j, n) { StreamConserved(j.contents[f], k.contents[f], flushed, twice, held, stream); }
  }

  /** Nothing was flushed and nothing copied. */
  lemma Refused(s: Fs.Fs, j: Journal, f: nat, held: seq<byte>, n: nat)
    requires f < 4
    ensures Conserves(s, s, j, j, f, [], false, held, held, n)
  {
    hide Live, Flat;
    FlatNone();
    assert [] + Extra(false, held) == [];
    assert [] + held == held;
    ExtendsNone(j, f);
    Finished(s, s, j, j, f, [], false, held, held, n);
  }

  /** An append that was taken was not empty. */
  lemma TookSome(s: Fs.Fs, f: nat, data: seq<byte>)
    requires f < 4 && |data| <= 65528 && Took(s, f, data)
    ensures |data| > 0
  {
    hide Fs.Allocate;
  }

  lemma AppendBlock(s: Fs.Fs, j: Journal, f: nat, data: seq<byte>)
    requires Live(s, j) && Roomy(s) && f < 4 && |data| <= 65528
    ensures Fs.Append(s, f, data).fs.header.block <= s.header.block + 1
    ensures Fs.Append(s, f, data).fs.numberOfBlocks == s.numberOfBlocks
  {
    hide Live, Fs.Append, AfterAppend, Splice, RecBytes;
    LiveAppend(s, j, f, data);
    LiveBlock(s, j);
    LiveBlock(Fs.Append(s, f, data).fs, AfterAppend(s, j, f, data));
    OneBlockMore(s, j, f, data);
    LiveIsCoherent(s, j);
    AppendIsLocal(s, f, data);
  }

  lemma OneBlockMore(s: Fs.Fs, j: Journal, f: nat, data: seq<byte>)
    requires f < 4 && |data| <= 65528
    ensures |AfterAppend(s, j, f, data).log| <= |j.log| + 1
  {
    hide Fs.Allocate;
  }

  /** The filesystem after appending some payloads to file `f`, one after the other. */
  ghost function Appended(s: Fs.Fs, f: nat, p: Payloads): Fs.Fs
    requires f < 4
  {
    if |p| == 0 then s
    else
      var t, d := Appended(s, f, p[..|p| - 1]), p[|p| - 1];
      if |d| <= MAX_PAYLOAD then Fs.Append(t, f, d).fs else t
  }

  lemma AppendedOne(s: Fs.Fs, f: nat, p: Payloads, d: seq<byte>)
    requires f < 4 && |d| <= MAX_PAYLOAD
    ensures Appended(s, f, p + [d]) == Fs.Append(Appended(s, f, p), f, d).fs
  {
    hide Fs.Append;
    assert (p + [d])[..|p|] == p;
  }

  lemma AppendedNone(s: Fs.Fs, f: nat)
    requires f < 4
    ensures Appended(s, f, []) == s
  {
  }

  /** The buffer is flushed only when it is full: all but the first `n` flushed
      payloads have 505 bytes. */
  ghost predicate FullFrom(p: Payloads, n: nat) {
    n <= |p| && forall i :: n <= i < |p| ==> |p[i]| == 505
  }

  /** Every flushed payload has 505 bytes, apart from the bytes `held` that were
      flushed by force in front of a record that must not be split. */
  ghost predicate Chunked(p: Payloads, forced: bool, held: seq<byte>) {
    if forced && |p| > 0 then p[0] == held && FullFrom(p, 1) else FullFrom(p, 0)
  }

  lemma ChunkedNone(forced: bool, held: seq<byte>)
    ensures Chunked([], forced, held)
  {
  }

  lemma ChunkedFrom(sofar: Payloads, p: Payloads, forced: bool, held: seq<byte>)
    requires sofar == (if forced then [held] else []) && sofar <= p && FullFrom(p, |sofar|)
    ensures Chunked(p, forced, held)
  {
  }

  /** The copying loop in progress: `n` bytes of `data` are consumed, `flushed`
      has been appended and `held` is in the buffer. */
  ghost predicate Streaming(
    s0: Fs.Fs, s: Fs.Fs, f: nat, sofar: Payloads, flushed: Payloads, held0: seq<byte>, held: seq<byte>, data: seq<byte>,
    n: nat)
    requires f < 4 && n <= |data|
  {
    && Flat(flushed) + held == Flat(sofar) + (held0 + data[..n])
    && sofar <= flushed && FullFrom(flushed, |sofar|) && s == Appended(s0, f, flushed)
    && (n > 0 ==> |held| < 505) && (|held0| + |data| < 505 ==> flushed == sofar && held == held0 + data[..n])
  }

  /** One turn of the loop has filled the buffer up to `all` and flushed it if it was full. */
  ghost predicate Turned(
    s: Fs.Fs, t: Fs.Fs, f: nat, flushed: Payloads, flushed': Payloads, all: seq<byte>, held': seq<byte>, ok: bool)
    requires f < 4
  {
    if |all| < 505 then ok && flushed' == flushed && held' == all && t == s
    else |all| == 505 && flushed' == (if ok then flushed + [all] else flushed) && t == Fs.Append(s, f, all).fs
         && held' == if ok then [] else all
  }

  lemma StreamStarts(s0: Fs.Fs, s: Fs.Fs, f: nat, sofar: Payloads, held: seq<byte>, data: seq<byte>)
    requires f < 4 && s == Appended(s0, f, sofar)
    ensures Streaming(s0, s, f, sofar, sofar, held, held, data, 0)
  {
    assert held + data[..0] == held;
  }

  lemma StreamIs(
    s0: Fs.Fs, s: Fs.Fs, f: nat, sofar: Payloads, flushed: Payloads, held0: seq<byte>, held: seq<byte>, data: seq<byte>,
    n: nat)
    requires f < 4 && n <= |data| && Flat(flushed) + held == Flat(sofar) + (held0 + data[..n])
    requires sofar <= flushed && FullFrom(flushed, |sofar|) && s == Appended(s0, f, flushed) && |held| < 505
    requires |held0| + |data| < 505 ==> flushed == sofar && held == held0 + data[..n]
    ensures Streaming(s0, s, f, sofar, flushed, held0, held, data, n)
  {
  }

  lemma StreamEnds(
    s0: Fs.Fs, s: Fs.Fs, f: nat, sofar: Payloads, flushed: Payloads, held0: seq<byte>, held: seq<byte>, data: seq<byte>)
    requires f < 4 && Streaming(s0, s, f, sofar, flushed, held0, held, data, |data|)
    ensures Flat(flushed) + held == Flat(sofar) + (held0 + data[..|data|])
    ensures sofar <= flushed && FullFrom(flushed, |sofar|) && s == Appended(s0, f, flushed)
    ensures |data| > 0 ==> |held| < 505
    ensures |held0| + |data| < 505 ==> flushed == sofar && held == held0 + data
  {
    assert data[..|data|] == data;
  }

  /** A record that fits is copied in a single turn. */
  lemma WholeTurn(
    s: Fs.Fs, t: Fs.Fs, f: nat, sofar: Payloads, flushed: Payloads, data: seq<byte>, held: seq<byte>, held': seq<byte>)
    requires f < 4 && Turned(s, t, f, sofar, flushed, held + data, held', true)
    ensures InOneEntry(data, held, sofar, held', flushed)
  {
    hide Fs.Append;
  }

  lemma StreamGoesOn(
    s0: Fs.Fs, s: Fs.Fs, t: Fs.Fs, f: nat, sofar: Payloads, flushed: Payloads, flushed': Payloads,
    held0: seq<byte>, held: seq<byte>, held': seq<byte>, data: seq<byte>, n: nat, copy: nat, ok: bool)
    requires f < 4 && n < |data| && n + copy <= |data| && Streaming(s0, s, f, sofar, flushed, held0, held, data, n)
    requires Turned(s, t, f, flushed, flushed', held + data[n..][..copy], held', ok)
    ensures Flat(flushed') + held' == Flat(sofar) + (held0 + data[..n + copy])
    ensures sofar <= flushed' && FullFrom(flushed', |sofar|)
    ensures ok ==> t == Appended(s0, f, flushed') && |held'| < 505
    ensures !ok ==> s == Appended(s0, f, flushed')
    ensures |held0| + |data| < 505 ==> ok && flushed' == sofar && held' == held0 + data[..n + copy]
  {
    hide Flat, Fs.Append, Appended;
    var all := held + data[n..][..copy];
    Consume(Flat(flushed), held, Flat(sofar), held0, data, n, copy);
    FlatAdds(flushed, all);
    assert Flat(flushed) + all + [] == Flat(flushed) + all;
    if |all| == 505 { AppendedOne(s0, f, flushed, all); }
    if |held0| + |data| < 505 {
      assert all == held0 + data[..n + copy] by {
        assert data[..n] + data[n..][..copy] == data[..n + copy];
        Reassociate(held0, data[..n], data[n..][..copy]);
      }
    }
  }

  class LogBuffer {
    const fs: FileSystem
    const file: nat
    var position: nat
    const buffer: array<byte>

    ghost predicate Valid()
      reads this
    {
      fs.Valid() && file < 4 && buffer.Length == MAX_PAYLOAD && position <= MAX_PAYLOAD && buffer != fs.buffer
    }

    /** The bytes accepted and not yet flushed. */
    ghost function Held(): seq<byte>
      requires Valid()
      reads this, buffer
    {
      buffer[..position]
    }

    /** `fkfs_log_initialize`, on a zeroed object. */
    constructor (fs: FileSystem, file: nat)
      requires fs.Valid() && file < 4
      ensures Valid() && this.fs == fs && this.file == file && Held() == [] && fresh(buffer)
    {
      this.fs, this.file, position := fs, file, 0;
      buffer := new byte[MAX_PAYLOAD](i => 0);
    }

    /** `fkfs_log_flush`. */
    method Flush() returns (ok: bool)
      requires Valid()
      modifies this`position, buffer, fs, fs.buffer
      ensures Valid()
      ensures Fs.Outcome(fs.State(), ok) == Fs.Append(old(fs.State()), file, old(Held()))
      ensures Held() == if ok then [] else old(Held())
    {
      hide Fs.Append;
      ok := fs.Append(file, buffer[..position]);
      if !ok {
        return false;
      }
      buffer[0] := 0;
      position := 0;
    }

    /** Copy as much as fits. */
    method Fill(rest: seq<byte>) returns (copy: nat)
      requires Valid()
      modifies this`position, buffer
      ensures Valid() && copy == (if |rest| > MAX_PAYLOAD - old(position) then MAX_PAYLOAD - old(position) else |rest|)
      ensures Held() == old(Held()) + rest[..copy]
    {
      var available := MAX_PAYLOAD - position;
      copy := if |rest| > available then available else |rest|;
      CopyInto(buffer, position, rest[..copy]);
      position := position + copy;
    }

    /** Flush, keeping the books. */
    method FlushStep(ghost j: Journal, ghost flushed: Payloads, ghost k: Journal, ghost n: nat)
      returns (ok: bool, ghost flushed': Payloads, ghost k': Journal, ghost twice: bool)
      requires Valid()
      modifies this`position, buffer, fs, fs.buffer
      ensures Valid() && (ok ==> position == 0) && (!ok ==> Held() == old(Held()))
      ensures Flat(flushed') + Held() == Flat(flushed) + old(Held())
      ensures flushed' == if ok then flushed + [old(Held())] else flushed
      ensures fs.State() == Fs.Append(old(fs.State()), file, old(Held())).fs
      ensures !ok ==> FailedFlush(old(fs.State()), fs.State(), file, Held(), twice)
      ensures twice ==> !ok && |Held()| > 0 && old(fs.files[file].sync)
      ensures fs.files == old(fs.files)
      ensures old(Ample(fs.State(), k, n + 1)) && Extends(j, k, file, flushed) ==>
                Ample(fs.State(), k', n) && Extends(j, k', file, flushed' + Extra(twice, Held()))
    {
      hide Live, Fs.Append, AfterAppend, Extends, Took;
      ghost var s, held := fs.State(), Held();
      k' := AfterAppend(s, k, file, held);
      FlatAdds(flushed, held);
      TakenFailsInSync(s, file, held);
      AppendSettings(s, file, held);
      ok := Flush();
      flushed' := if ok then flushed + [held] else flushed;
      twice := !ok && Took(s, file, held);
      if twice { TookSome(s, file, held); }
      if Ample(s, k, n + 1) && Extends(j, k, file, flushed) {
        AmpleAppend(s, k, file, held, n);
        ExtendsMore(j, k, k', file, flushed, if Took(s, file, held) then [held] else []);
        assert flushed + [held] + [] == flushed + [held];
      }
    }

    /** One turn of the loop: fill the buffer and flush it if it is full. */
    method Turn(rest: seq<byte>, ghost j: Journal, ghost flushed: Payloads, ghost k: Journal)
      returns (ok: bool, copy: nat, ghost flushed': Payloads, ghost k': Journal, ghost twice: bool)
      requires Valid() && |rest| > 0
      modifies this`position, buffer, fs, fs.buffer
      ensures Valid() && copy == (if |rest| > MAX_PAYLOAD - old(position) then MAX_PAYLOAD - old(position) else |rest|)
      ensures ok ==> position < MAX_PAYLOAD
      ensures Turned(old(fs.State()), fs.State(), file, flushed, flushed', old(Held()) + rest[..copy], Held(), ok)
      ensures !ok ==> FailedFlush(old(fs.State()), fs.State(), file, Held(), twice)
      ensures twice ==> !ok && |Held()| > 0 && old(fs.files[file].sync)
      ensures fs.files == old(fs.files)
      ensures old(Ample(fs.State(), k, |rest| + (if position == MAX_PAYLOAD then 1 else 0)))
              && Extends(j, k, file, flushed)
              ==> Ample(fs.State(), k', |rest| - copy) && Extends(j, k', file, flushed' + Extra(twice, Held()))
    {
      hide Live, Flat, Extends, FailedFlush, Fs.Append;
      ok, flushed', k', twice := true, flushed, k, false;
      assert flushed + [] == flushed;
      copy := Fill(rest);
      if position >= MAX_PAYLOAD {
        ok, flushed', k', twice := FlushStep(j, flushed, k, |rest| - copy);
      }
    }

    /** The copying loop of `fkfs_log_append_binary`. */
    method CopyAll(data: seq<byte>, ghost j: Journal, ghost sofar: Payloads, ghost k: Journal, ghost s0: Fs.Fs)
      returns (ok: bool, ghost flushed: Payloads, consumed: nat, ghost k': Journal, ghost twice: bool,
          ghost last: Fs.Fs)
      requires Valid() && fs.State() == Appended(s0, file, sofar)
      modifies this`position, buffer, fs, fs.buffer
      ensures Valid() && consumed <= |data| && (ok ==> consumed == |data|)
      ensures Flat(flushed) + Held() == Flat(sofar) + (old(Held()) + data[..consumed])
      ensures ok && old(|data| <= MAX_PAYLOAD - position) ==> InOneEntry(data, old(Held()), sofar, Held(), flushed)
      ensures sofar <= flushed && FullFrom(flushed, |sofar|) && (ok && |data| > 0 ==> |Held()| < 505)
      ensures Appended(s0, file, flushed) == if ok then fs.State() else last
      ensures old(|Held()|) + |data| < 505 ==> ok && flushed == sofar && Held() == old(Held()) + data
      ensures !ok ==> FailedFlush(last, fs.State(), file, Held(), twice)
      ensures twice ==> !ok && |Held()| > 0 && old(fs.files[file].sync)
      ensures old(Ample(fs.State(), k, |data| + 1)) && Extends(j, k, file, sofar) ==>
                Live(fs.State(), k') && Extends(j, k', file, flushed + Extra(twice, Held()))
    {
      hide Live, Flat, Extends, Fs.Append, FailedFlush, Appended, Streaming, Turned, FullFrom, Ample;
      flushed, consumed, k', twice, last := sofar, 0, k, false, fs.State();
      ghost var ample := Ample(fs.State(), k, |data| + 1) && Extends(j, k, file, sofar);
      ghost var fits := |data| <= MAX_PAYLOAD - position;
      ghost var held := Held();
      StreamStarts(s0, fs.State(), file, sofar, held, data);
      if ample { AmpleLess(fs.State(), k, |data| + 1, |data| + if position == MAX_PAYLOAD then 1 else 0); }
      while consumed < |data|
        invariant Valid() && consumed <= |data| && !twice && fs.files == old(fs.files)
        invariant Streaming(s0, fs.State(), file, sofar, flushed, held, Held(), data, consumed)
        invariant fits && consumed < |data| ==> consumed == 0 && Held() == held && flushed == sofar
        invariant fits && consumed == |data| ==> InOneEntry(data, held, sofar, Held(), flushed)
        invariant ample ==> Ample(fs.State(), k', |data| - consumed + (if position == MAX_PAYLOAD then 1 else 0))
                            && Extends(j, k', file, flushed)
        decreases |data| - consumed, if position == MAX_PAYLOAD then 1 else 0
      {
        ghost var before, was, from := Held(), flushed, consumed;
        last := fs.State();
        var copy;
        ok, copy, flushed, k', twice := Turn(data[consumed..], j, flushed, k');
        StreamGoesOn(s0, last, fs.State(), file, sofar, was, flushed, held, before, Held(), data, from, copy, ok);
        consumed := consumed + copy;
        if !ok {
          if ample { AmpleLess(fs.State(), k', |data| - consumed, 0); }
          return false, flushed, consumed, k', twice, last;
        }
        StreamIs(s0, fs.State(), file, sofar, flushed, held, Held(), data, consumed);
        if fits {
          assert data[from..][..copy] == data;
          WholeTurn(last, fs.State(), file, sofar, flushed, data, held, Held());
        }
        assert flushed + [] == flushed;
      }
      assert flushed + [] == flushed;
      StreamEnds(s0, fs.State(), file, sofar, flushed, held, Held(), data);
      if ample { AmpleLess(fs.State(), k', if position == MAX_PAYLOAD then 1 else 0, 0); }
      ok := true;
    }

    /** `fkfs_log_append_binary`. Whatever the device does, what was flushed
        successfully followed by what is held equals what was held before
        followed by the bytes consumed, and success consumes them all. A record
        that must not be split is held whole or was flushed whole in one entry.
        On a live volume the file's own bytes followed by the held ones are
        conserved if and only if the last flush did not fail after the file had
        taken its bytes, which happens to sync files only. */
    method AppendBinary(data: seq<byte>, canSplit: bool, ghost j: Journal)
      returns (ok: bool, ghost flushed: Payloads, ghost consumed: nat, ghost k: Journal, ghost twice: bool,
          ghost last: Fs.Fs)
      requires Valid()
      modifies this`position, buffer, fs, fs.buffer
      ensures Valid() && consumed <= |data| && (ok ==> consumed == |data|)
      ensures Flat(flushed) + Held() == old(Held()) + data[..consumed]
      ensures ok && !canSplit ==>
                if old(|data| <= MAX_PAYLOAD - position) then InOneEntry(data, old(Held()), [], Held(), flushed)
                else InOneEntry(data, [], [old(Held())], Held(), flushed)
      ensures old(!canSplit && |Held()| + |data| > 505) && |data| >= 505 ==>
                !ok && !twice && consumed == 0 && flushed == [] &&
                Held() == old(Held()) && fs.State() == old(fs.State())
      ensures !ok && !(old(!canSplit && |Held()| + |data| > 505) && |data| >= 505) ==>
                last == Appended(old(fs.State()), file, flushed) && FailedFlush(last, fs.State(), file, Held(), twice)
      ensures ok ==> fs.State() == Appended(old(fs.State()), file, flushed) && (|data| > 0 ==> |Held()| < 505)
      ensures old(|Held()|) + |data| < 505 ==> ok && flushed == [] && Held() == old(Held()) + data
      ensures Chunked(flushed, old(!canSplit && |Held()| + |data| > 505), old(Held()))
      ensures twice ==> !ok && old(fs.files[file].sync)
      ensures Conserves(old(fs.State()), fs.State(), j, k, file, flushed, twice, Held(),
              old(Held()) + data[..consumed], |data| + 2)
    {
      hide Live, Flat, Extends, InOneEntry, Fs.Append, Ample, FailedFlush, Conserves, Appended, FullFrom, Chunked;
      ghost var s0, forced := fs.State(), !canSplit && |Held()| + |data| > 505;
      ChunkedNone(forced, Held());
      AppendedNone(s0, file);
      AppendedOne(s0, file, [], Held());
      assert [] + [Held()] == [Held()];
      flushed, consumed, k, twice, last := [], 0, j, false, fs.State();
      FlatNone();
      ExtendsNone(j, file);
      ghost var held := Held();
      if !canSplit && MAX_PAYLOAD - position < |data| {
        if |data| >= MAX_PAYLOAD {
          assert held + data[..0] == held;
          Refused(s0, j, file, held, |data| + 2);
          return false, flushed, consumed, k, twice, last;
        }
        ok, flushed, k, twice := FlushStep(j, flushed, k, |data| + 1);
        if !ok {
          if Ample(s0, j, |data| + 2) { AmpleLess(fs.State(), k, |data| + 1, 0); }
          assert held + data[..0] == held;
          Finished(s0, fs.State(), j, k, file, flushed, twice, Held(), held, |data| + 2);
          return false, flushed, consumed, k, twice, last;
        }
        assert Held() == [] && flushed == [held];
        assert flushed + Extra(twice, Held()) == flushed;
      }
      assert Flat(flushed) + Held() == held;
      if |flushed| == 0 && Ample(fs.State(), k, |data| + 2) {
        AmpleLess(fs.State(), k, |data| + 2, |data| + 1);
      }
      ghost var base, sofar := Held(), flushed;
      var n;
      ok, flushed, n, k, twice, last := CopyAll(data, j, flushed, k, s0);
      consumed := n;
      ChunkedFrom(sofar, flushed, forced, held);
      Regroup(Flat(sofar), base, data[..n], held, []);
      Finished(s0, fs.State(), j, k, file, flushed, twice, Held(), held + data[..n], |data| + 2);
    }

    /** `fkfs_log_append`. */
    method Append(text: seq<byte>, ghost j: Journal)
      returns (ok: bool, ghost flushed: Payloads, ghost consumed: nat, ghost k: Journal, ghost twice: bool,
          ghost last: Fs.Fs)
      requires Valid()
      modifies this`position, buffer, fs, fs.buffer
      ensures Valid() && consumed <= |text| && (ok ==> consumed == |text|)
      ensures Flat(flushed) + Held() == old(Held()) + text[..consumed]
      ensures !ok ==>
                last == Appended(old(fs.State()), file, flushed) && FailedFlush(last, fs.State(), file, Held(), twice)
      ensures ok ==> fs.State() == Appended(old(fs.State()), file, flushed) && (|text| > 0 ==> |Held()| < 505)
      ensures old(|Held()|) + |text| < 505 ==> ok && flushed == [] && Held() == old(Held()) + text
      ensures FullFrom(flushed, 0)
      ensures twice ==> !ok && old(fs.files[file].sync)
      ensures Conserves(old(fs.State()), fs.State(), j, k, file, flushed, twice, Held(),
              old(Held()) + text[..consumed], |text| + 2)
    {
      hide Conserves, FailedFlush, Flat, Appended, FullFrom;
      ok, flushed, consumed, k, twice, last := AppendBinary(text, true, j);
    }
  }
}
