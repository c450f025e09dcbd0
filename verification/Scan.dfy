/** Iterator tokens and the unlimited scan they describe. */
module Scan {
  import opened Bytes
  import opened Header
  import opened Entry
  import opened Card

  datatype Token = Token(file: nat, block: u32, offset: u16, lastBlock: u32, lastOffset: u16, size: u32)

  datatype Hit = Hit(block: nat, offset: nat, data: seq<byte>)

  /** `fkfs_file_iterator_done`. */
  predicate Done(t: Token) {
    t.block > t.lastBlock || (t.block == t.lastBlock && t.offset >= t.lastOffset)
  }

  /** `fkfs_file_iterator_valid`, for a log whose current block is `at`. */
  predicate Valid(at: u32, t: Token) {
    t.block > 0 && t.block <= at
    && (t.block < t.lastBlock || (t.block == t.lastBlock && t.offset <= t.lastOffset))
  }

  /** `fkfs_file_iterator_create`. */
  function CreateToken(h: Header, f: nat): Token
    requires f < 4
  {
    var file := h.files[f];
    Token(f, file.startBlock, file.startOffset, file.endBlock, file.endOffset, file.size)
  }

  /** `fkfs_file_iterator_reopen`: same place, but up to the file's present end. */
  function Reopen(h: Header, t: Token): Token
    requires t.file < 4
  {
    var file := h.files[t.file];
    if file.size < t.size then CreateToken(h, t.file)
    else Token(t.file, t.block, t.offset, file.endBlock, file.endOffset, file.size)
  }

  /** `fkfs_file_iterator_resume`: same place, same end. */
  function Resume(h: Header, t: Token): Token
    requires t.file < 4
  {
    if h.files[t.file].size < t.size then CreateToken(h, t.file) else t
  }

  /** `fkfs_file_iterator_move_end`. */
  function MoveEnd(t: Token): Token {
    t.(block := t.lastBlock, offset := t.lastOffset)
  }

  datatype Turn = Found(hit: Hit, next: Token) | Skipped(next: Token) | Turned(next: Token)

  /** The start of the next block, with the wrap that is skipped at the end. */
  function TurnPage(n: u32, t: Token): Token {
    var u := t.(block := Inc32(t.block), offset := 0);
    if !Done(u) && (u.block == (n - 2) % 0x1_0000_0000 || u.block == MAX32) then u.(block := FIRST_BLOCK) else u
  }

  /** One turn of the loop of `fkfs_file_iterate`, on the content `b` of the token's block. */
  function OneTurn(versions: seq<u16>, n: u32, b: Block, t: Token): Turn
    requires |versions| == 4
  {
    var check := Check(versions, b, t.offset);
    if check.Size? then Turned(TurnPage(n, t))
    else
      var next := t.(offset := t.offset + Occupied(b, t.offset));
      var e := EntryAt(b, t.offset);
      if check.Good? && e.file == t.file then
        Found(Hit(t.block, t.offset, b[t.offset + 7..t.offset + 7 + e.size]), next)
      else Skipped(next)
  }

  /** The token's range ends before the place at which the log wraps. */
  predicate InRange(blocks: Blocks, t: Token) {
    t.lastBlock + 2 < |blocks| || (t.lastBlock + 2 == |blocks| && t.lastOffset == 0)
  }

  /** Every turn makes progress: to a later offset of the same block, or to the
      next block; the wrap is never taken. */
  lemma TurnProgress(versions: seq<u16>, blocks: Blocks, t: Token)
    requires |versions| == 4 && InRange(blocks, t) && !Done(t)
    ensures var r := OneTurn(versions, |blocks|, blocks[t.block], t);
            && r.next.file == t.file && r.next.lastBlock == t.lastBlock && r.next.lastOffset == t.lastOffset
            && r.next.size == t.size
            && (r.Found? <==> Check(versions, blocks[t.block], t.offset).Good?
                              && EntryAt(blocks[t.block], t.offset).file == t.file)
            && (r.Turned? <==> Check(versions, blocks[t.block], t.offset).Size?)
            && (r.Turned? ==> r.next.block == t.block + 1 && r.next.offset == 0)
            && (!r.Turned? ==> r.next.block == t.block && t.offset + 8 <= r.next.offset <= 1023)
  {
    hide EntryAt;
  }

  /** All the entries from a token to its end: what an unlimited scan returns,
      for every content of the card. */
  ghost function Remaining(versions: seq<u16>, blocks: Blocks, t: Token): seq<Hit>
    requires |versions| == 4 && InRange(blocks, t)
    decreases if t.block <= t.lastBlock then t.lastBlock + 1 - t.block else 0, 0x1_0000 - t.offset
  {
    if Done(t) then []
    else
      TurnProgress(versions, blocks, t);
      match OneTurn(versions, |blocks|, blocks[t.block], t)
      case Found(hit, next) => [hit] + Remaining(versions, blocks, next)
      case Skipped(next) => Remaining(versions, blocks, next)
      case Turned(next) => Remaining(versions, blocks, next)
  }

  /** A scan depends on nothing but the blocks of its range. */
  lemma {:induction false} ScanFrame(versions: seq<u16>, a: Blocks, b: Blocks, t: Token)
    requires |versions| == 4 && InRange(a, t) && |b| == |a|
    requires forall i :: t.block <= i <= t.lastBlock && i < |a| ==> b[i] == a[i]
    ensures Remaining(versions, b, t) == Remaining(versions, a, t) && Final(versions, b, t) == Final(versions, a, t)
    decreases if t.block <= t.lastBlock then t.lastBlock + 1 - t.block else 0, 0x1_0000 - t.offset
  {
    hide OneTurn;
    if !Done(t) {
      TurnProgress(versions, a, t);
      ScanFrame(versions, a, b, OneTurn(versions, |a|, a[t.block], t).next);
    }
  }

  /** Where an unlimited scan comes to rest. */
  ghost function Final(versions: seq<u16>, blocks: Blocks, t: Token): Token
    requires |versions| == 4 && InRange(blocks, t)
    decreases if t.block <= t.lastBlock then t.lastBlock + 1 - t.block else 0, 0x1_0000 - t.offset
  {
    if Done(t) then t
    else
      TurnProgress(versions, blocks, t);
      Final(versions, blocks, OneTurn(versions, |blocks|, blocks[t.block], t).next)
  }

  // ----- when the scan ends -----

  /** A token before the last two blocks whose end lies in them or beyond. */
  predicate Roams(blocks: Blocks, t: Token) {
    |blocks| >= 8003 && 0 < t.block && t.block + 2 < |blocks| && !InRange(blocks, t)
  }

  /** Such a token is not done, and neither is the one its next turn leads to. */
  lemma RoamsOn(versions: seq<u16>, blocks: Blocks, t: Token)
    requires |versions| == 4 && Roams(blocks, t)
    ensures !Done(t) && Roams(blocks, OneTurn(versions, |blocks|, blocks[t.block], t).next)
  {
    hide EntryAt;
  }

  /** The token after `k` more turns, of which it never runs out. */
  ghost function TurnsLater(versions: seq<u16>, blocks: Blocks, t: Token, k: nat): (u: Token)
    requires |versions| == 4 && Roams(blocks, t)
    ensures Roams(blocks, u)
  {
    if k == 0 then t
    else
      var u := TurnsLater(versions, blocks, t, k - 1);
      RoamsOn(versions, blocks, u);
      OneTurn(versions, |blocks|, blocks[u.block], u).next
  }

  lemma {:induction false} FinalIsDone(versions: seq<u16>, blocks: Blocks, t: Token)
    requires |versions| == 4 && InRange(blocks, t)
    ensures Done(Final(versions, blocks, t))
    decreases if t.block <= t.lastBlock then t.lastBlock + 1 - t.block else 0, 0x1_0000 - t.offset
  {
    hide OneTurn;
    if !Done(t) {
      TurnProgress(versions, blocks, t);
      FinalIsDone(versions, blocks, OneTurn(versions, |blocks|, blocks[t.block], t).next);
    }
  }

  /** On every card content an unlimited scan from a block before the last two
      comes to its end if its token is in range, and never does otherwise. */
  lemma ScanEndsInRange(versions: seq<u16>, blocks: Blocks, t: Token)
    requires |versions| == 4 && |blocks| >= 8003 && 0 < t.block && t.block + 2 < |blocks|
    ensures InRange(blocks, t) ==> Done(Final(versions, blocks, t))
    ensures !InRange(blocks, t) ==> forall k :: !Done(TurnsLater(versions, blocks, t, k))
  {
    if InRange(blocks, t) {
      FinalIsDone(versions, blocks, t);
    } else {
      forall k: nat
        ensures !Done(TurnsLater(versions, blocks, t, k))
      {
        RoamsOn(versions, blocks, TurnsLater(versions, blocks, t, k));
      }
    }
  }

  lemma ZeroTurn(versions: seq<u16>, n: u32, t: Token)
    requires |versions| == 4 && t.offset == 0
    ensures OneTurn(versions, n, ZERO_BLOCK, t) == Turned(TurnPage(n, t))
  {
    hide Check, EntryAt, TurnPage;
    ZeroEndsChain(versions, ZERO_BLOCK, 0);
  }

  lemma {:induction false} ZeroRingWalk(versions: seq<u16>, blocks: Blocks, t: Token, k: nat)
    requires |versions| == 4 && Roams(blocks, t) && t.block == 8000 && t.offset == 0 && 8000 + k + 2 < |blocks|
    requires forall b :: 8000 <= b < |blocks| - 2 ==> blocks[b] == ZERO_BLOCK
    ensures TurnsLater(versions, blocks, t, k) == t.(block := 8000 + k)
  {
    hide OneTurn;
    if k > 0 {
      ZeroRingWalk(versions, blocks, t, k - 1);
      ZeroTurn(versions, |blocks|, t.(block := 8000 + k - 1));
    }
  }

  /** Round a ring of zeros such a token comes back to where it was without a
      hit, so that a single call without limits does not return. */
  lemma ZeroRingCycles(versions: seq<u16>, blocks: Blocks, t: Token, k: nat)
    requires |versions| == 4 && Roams(blocks, t) && t.block == 8000 && t.offset == 0
    requires forall b :: 8000 <= b < |blocks| - 2 ==> blocks[b] == ZERO_BLOCK
    ensures TurnsLater(versions, blocks, t, |blocks| - 8002) == t
    ensures 8000 + k + 2 < |blocks| ==>
              var u := TurnsLater(versions, blocks, t, k);
              OneTurn(versions, |blocks|, blocks[u.block], u).Turned?
  {
    hide OneTurn;
    ZeroRingWalk(versions, blocks, t, |blocks| - 8003);
    ZeroTurn(versions, |blocks|, t.(block := |blocks| - 3));
    if 8000 + k + 2 < |blocks| {
      ZeroRingWalk(versions, blocks, t, k);
      ZeroTurn(versions, |blocks|, t.(block := 8000 + k));
    }
  }

  /** Is `p` strictly before `q` in the log? */
  predicate Before(b1: nat, o1: nat, b2: nat, o2: nat) {
    b1 < b2 || (b1 == b2 && o1 < o2)
  }

  /** A live entry of the token's file, between the token and its end. */
  ghost predicate Within(versions: seq<u16>, blocks: Blocks, t: Token, h: Hit)
    requires |versions| == 4
  {
    && !Before(h.block, h.offset, t.block, t.offset)
    && Before(h.block, h.offset, t.lastBlock, t.lastOffset)
    && h.block < |blocks|
    && Check(versions, blocks[h.block], h.offset).Good?
    && EntryAt(blocks[h.block], h.offset).file == t.file
    && h.data == blocks[h.block][h.offset + 7..h.offset + 7 + EntryAt(blocks[h.block], h.offset).size]
  }

  ghost predicate Ordered(versions: seq<u16>, blocks: Blocks, t: Token, hits: seq<Hit>)
    requires |versions| == 4
  {
    && (forall i, j :: 0 <= i < j < |hits| ==> Before(hits[i].block, hits[i].offset, hits[j].block, hits[j].offset))
    && (forall i :: 0 <= i < |hits| ==> Within(versions, blocks, t, hits[i]))
  }

  lemma OrderedStep(versions: seq<u16>, blocks: Blocks, t: Token, r: Turn, rest: seq<Hit>)
    requires |versions| == 4 && InRange(blocks, t) && !Done(t)
    requires r == OneTurn(versions, |blocks|, blocks[t.block], t) && Ordered(versions, blocks, r.next, rest)
    ensures Ordered(versions, blocks, t, if r.Found? then [r.hit] + rest else rest)
  {
    hide Within, OneTurn, Before;
    TurnPlaces(versions, blocks, t, r);
    if r.Found? {
      OrderedFront(versions, blocks, t, r.next, r.hit, rest);
    } else {
      OrderedRest(versions, blocks, t, r.next, rest);
    }
  }

  lemma OrderedRest(versions: seq<u16>, blocks: Blocks, t: Token, u: Token, rest: seq<Hit>)
    requires |versions| == 4 && Ordered(versions, blocks, u, rest) && Before(t.block, t.offset, u.block, u.offset)
    requires u.file == t.file && u.lastBlock == t.lastBlock && u.lastOffset == t.lastOffset
    ensures Ordered(versions, blocks, t, rest)
    ensures forall i :: 0 <= i < |rest| ==> Before(t.block, t.offset, rest[i].block, rest[i].offset)
  {
    hide Within, Before;
    forall i | 0 <= i < |rest|
      ensures Within(versions, blocks, t, rest[i]) && Before(t.block, t.offset, rest[i].block, rest[i].offset)
    {
      StaysWithin(versions, blocks, t, u, rest[i]);
    }
  }

  lemma OrderedFront(versions: seq<u16>, blocks: Blocks, t: Token, u: Token, h: Hit, rest: seq<Hit>)
    requires |versions| == 4 && Ordered(versions, blocks, u, rest) && Before(t.block, t.offset, u.block, u.offset)
    requires u.file == t.file && u.lastBlock == t.lastBlock && u.lastOffset == t.lastOffset
    requires h.block == t.block && h.offset == t.offset && Within(versions, blocks, t, h)
    ensures Ordered(versions, blocks, t, [h] + rest)
  {
    hide Within, Before;
    OrderedRest(versions, blocks, t, u, rest);
  }

  /** A hit lies where the turn began, and the next token behind it. */
  lemma TurnPlaces(versions: seq<u16>, blocks: Blocks, t: Token, r: Turn)
    requires |versions| == 4 && InRange(blocks, t) && !Done(t) && r == OneTurn(versions, |blocks|, blocks[t.block], t)
    ensures r.Found? ==> r.hit.block == t.block && r.hit.offset == t.offset && Within(versions, blocks, t, r.hit)
    ensures Before(t.block, t.offset, r.next.block, r.next.offset) && r.next.file == t.file
    ensures r.next.lastBlock == t.lastBlock && r.next.lastOffset == t.lastOffset
  {
    hide Check, EntryAt, Occupied, TurnPage;
    TurnProgress(versions, blocks, t);
  }

  lemma StaysWithin(versions: seq<u16>, blocks: Blocks, t: Token, u: Token, h: Hit)
    requires |versions| == 4 && Within(versions, blocks, u, h) && Before(t.block, t.offset, u.block, u.offset)
    requires u.file == t.file && u.lastBlock == t.lastBlock && u.lastOffset == t.lastOffset
    ensures Within(versions, blocks, t, h) && Before(t.block, t.offset, h.block, h.offset)
  {
    hide Check, EntryAt;
  }

  /** The positions returned strictly increase, lie between the token and its
      end, and carry entries that pass the check for the token's file. */
  lemma {:induction false} HitsAreOrdered(versions: seq<u16>, blocks: Blocks, t: Token)
    requires |versions| == 4 && InRange(blocks, t)
    ensures Ordered(versions, blocks, t, Remaining(versions, blocks, t))
    decreases if t.block <= t.lastBlock then t.lastBlock + 1 - t.block else 0, 0x1_0000 - t.offset
  {
    hide Check, EntryAt, Occupied, TurnPage;
    if !Done(t) {
      TurnProgress(versions, blocks, t);
      var r := OneTurn(versions, |blocks|, blocks[t.block], t);
      HitsAreOrdered(versions, blocks, r.next);
      OrderedStep(versions, blocks, t, r, Remaining(versions, blocks, r.next));
    }
  }

  function Data(hits: seq<Hit>): (d: seq<seq<byte>>)
    ensures |d| == |hits|
  {
    seq(|hits|, i requires 0 <= i < |hits| => hits[i].data)
  }

  lemma DataAdds(a: seq<Hit>, b: seq<Hit>)
    ensures Data(a + b) == Data(a) + Data(b)
  {
  }

  lemma NoData()
    ensures Data([]) == []
  {
  }
}
