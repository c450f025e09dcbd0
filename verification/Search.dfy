/** The in-block search for a place to write. */
module Search {
  import opened Bytes
  import opened Entry

  datatype Result = Result(offset: nat, status: Status)

  /** May a file of priority `priority` take over the valid entry at `off`? */
  predicate Yields(prios: seq<u8>, b: Block, off: nat, priority: u8, required: nat)
    requires |prios| == 4 && off + ENTRY_SIZE <= 512 && EntryAt(b, off).file < 4
  {
    prios[EntryAt(b, off).file] > priority && EntryAt(b, off).available >= required
  }

  /** `fkfs_block_available_offset` as a recursion along the chain. */
  function SearchFrom(versions: seq<u16>, prios: seq<u8>, b: Block, priority: u8, required: nat, off: nat): (r: Result)
    requires |versions| == 4 && |prios| == 4 && required >= 8 && off + required <= 512
    ensures off <= r.offset
    ensures !r.status.Good?
    ensures !r.status.Eob? ==> r.offset + required <= 512
    decreases 512 - off
  {
    var status := Check(versions, b, off);
    if !status.Good? then Result(off, status)
    else if Yields(prios, b, off, priority, required) then Result(off, Priority)
    else
      var next := off + Occupied(b, off);
      if next + required < 512 then SearchFrom(versions, prios, b, priority, required, next) else Result(next, Eob)
  }

  method AvailableOffset(versions: seq<u16>, prios: seq<u8>, b: Block, priority: u8, required: nat, start: nat)
    returns (found: bool, offset: nat, status: Status)
    requires |versions| == 4 && |prios| == 4 && required >= 8 && start + required <= 512
    ensures Result(offset, status) == SearchFrom(versions, prios, b, priority, required, start)
    ensures found == !status.Eob?
  {
    hide Check, EntryAt;
    offset := start;
    while true
      invariant start <= offset && offset + required <= 512
      invariant SearchFrom(versions, prios, b, priority, required, start)
             == SearchFrom(versions, prios, b, priority, required, offset)
      decreases 512 - offset
    {
      status := Check(versions, b, offset);
      if status.Size? || status.Crc? {
        return true, offset, status;
      }
      if Yields(prios, b, offset, priority, required) {
        return true, offset, Priority;
      }
      offset := offset + Occupied(b, offset);
      if !(offset + required < 512) {
        return false, offset, Eob;
      }
    }
  }

  // ----- what the search finds -----

  /** The position reached after stepping over `k` entries. */
  function ChainPos(b: Block, off: nat, k: nat): nat {
    if k == 0 then off
    else
      var p := ChainPos(b, off, k - 1);
      if p + ENTRY_SIZE <= 512 then p + Occupied(b, p) else p
  }

  /** A place where the search may stop: free space, or an entry that yields. */
  predicate Stops(versions: seq<u16>, prios: seq<u8>, b: Block, priority: u8, required: nat, p: nat)
    requires |versions| == 4 && |prios| == 4
  {
    Check(versions, b, p).Good? ==> Yields(prios, b, p, priority, required)
  }

  lemma {:induction false} ChainPosShifts(b: Block, off: nat, k: nat)
    requires off + ENTRY_SIZE <= 512
    ensures ChainPos(b, off, k + 1) == ChainPos(b, off + Occupied(b, off), k)
  {
    if k > 0 { ChainPosShifts(b, off, k - 1); }
  }

  /** The search ends at the first chain position that stops it, after `k`
      valid entries none of which yields; it gives up exactly when the entries
      leave no room before such a position. */
  lemma {:induction false} SearchFindsFirst(
    versions: seq<u16>, prios: seq<u8>, b: Block, priority: u8, required: nat, off: nat) returns (k: nat)
    requires |versions| == 4 && |prios| == 4 && required >= 8 && off + required <= 512
    ensures var r := SearchFrom(versions, prios, b, priority, required, off);
            && r.offset == ChainPos(b, off, k)
            && (forall j :: 0 <= j < k ==>
                 !Stops(versions, prios, b, priority, required, ChainPos(b, off, j))
                 && ChainPos(b, off, j) + required <= 512)
            && (!r.status.Eob? <==> k == 0 || r.offset + required < 512)
            && (!r.status.Eob? ==> Stops(versions, prios, b, priority, required, r.offset))
    decreases 512 - off
  {
    hide Check, EntryAt, Yields;
    k := 0;
    var status := Check(versions, b, off);
    if status.Good? && !Yields(prios, b, off, priority, required) {
      var next := off + Occupied(b, off);
      ChainPosShifts(b, off, 0);
      if next + required < 512 {
        var k' := SearchFindsFirst(versions, prios, b, priority, required, next);
        k := k' + 1;
        ChainPosShifts(b, off, k');
        forall j | 0 <= j < k
          ensures !Stops(versions, prios, b, priority, required, ChainPos(b, off, j))
                  && ChainPos(b, off, j) + required <= 512
        {
          if j > 0 { ChainPosShifts(b, off, j - 1); }
        }
      } else {
        k := 1;
      }
    }
  }

  /** When an entry yields, the write lies inside that entry's own bytes. */
  lemma VictimCoversWrite(versions: seq<u16>, prios: seq<u8>, b: Block, priority: u8, required: nat, off: nat)
    requires |versions| == 4 && |prios| == 4 && required >= 8 && off + required <= 512
    requires SearchFrom(versions, prios, b, priority, required, off).status.Priority?
    ensures var p := SearchFrom(versions, prios, b, priority, required, off).offset;
            && Check(versions, b, p).Good?
            && prios[EntryAt(b, p).file] > priority
            && p + required + ENTRY_SIZE <= p + Occupied(b, p)
  {
    hide Check, EntryAt;
    var k := SearchFindsFirst(versions, prios, b, priority, required, off);
    PriorityIsGood(versions, prios, b, priority, required, off);
  }

  lemma {:induction false} PriorityIsGood(
    versions: seq<u16>, prios: seq<u8>, b: Block, priority: u8, required: nat, off: nat)
    requires |versions| == 4 && |prios| == 4 && required >= 8 && off + required <= 512
    ensures var r := SearchFrom(versions, prios, b, priority, required, off);
            r.status.Priority? ==> Check(versions, b, r.offset).Good?
    decreases 512 - off
  {
    hide Check, EntryAt;
    if Check(versions, b, off).Good? && !Yields(prios, b, off, priority, required) {
      var next := off + Occupied(b, off);
      if next + required < 512 { PriorityIsGood(versions, prios, b, priority, required, next); }
    }
  }

  /** An entry that ends before the write keeps its bytes and its validity. */
  lemma EarlierSurvives(versions: seq<u16>, b: Block, p: nat, at: nat, data: seq<byte>)
    requires |versions| == 4 && at + |data| <= 512 && Check(versions, b, p).Good?
    requires p + ENTRY_SIZE + EntryAt(b, p).size <= at
    ensures Survives(versions, b, Splice(b, at, data), p)
  {
    hide BlockCrc;
    var c := Splice(b, at, data);
    assert forall i :: 0 <= i < at ==> c[i] == b[i];
    assert EntryAt(c, p) == EntryAt(b, p);
    var n := EntryAt(b, p).size;
    assert c[p..p + 5] == b[p..p + 5];
    assert c[p + 7..p + 7 + n] == b[p + 7..p + 7 + n];
  }

  /** The valid entry at `p` of `b` is still there in `c`, header, payload and validity. */
  ghost predicate Survives(versions: seq<u16>, b: Block, c: Block, p: nat)
    requires |versions| == 4 && p + ENTRY_SIZE + EntrySize(b, p) <= 512
  {
    && Check(versions, c, p).Good? && EntryAt(c, p) == EntryAt(b, p)
    && c[p + 7..p + 7 + EntrySize(b, p)] == b[p + 7..p + 7 + EntrySize(b, p)]
  }

  function EntrySize(b: Block, p: nat): nat {
    if p + ENTRY_SIZE <= 512 then EntryAt(b, p).size else 0
  }

  lemma {:induction false} ChainAdvances(b: Block, off: nat, j: nat, k: nat)
    requires j < k
    ensures ChainPos(b, off, j) <= ChainPos(b, off, k)
    ensures var p := ChainPos(b, off, j);
            p + ENTRY_SIZE <= 512 ==> p + Occupied(b, p) <= ChainPos(b, off, k)
    decreases k
  {
    hide EntryAt;
    if j < k - 1 { ChainAdvances(b, off, j, k - 1); }
  }

  /** Whatever is then written where the search stopped, every entry it skipped
      survives, provided the entry's own bytes lie within the space it occupies. */
  lemma SkippedSurvive(
    versions: seq<u16>, prios: seq<u8>, b: Block, priority: u8, required: nat, off: nat,
        data: seq<byte>) returns (k: nat)
    requires |versions| == 4 && |prios| == 4 && required >= 8 && off + required <= 512
    requires !SearchFrom(versions, prios, b, priority, required, off).status.Eob? && |data| == required
    ensures var at := SearchFrom(versions, prios, b, priority, required, off).offset;
            && at == ChainPos(b, off, k) && at + |data| <= 512
            && forall j {:trigger ChainPos(b, off, j)} :: 0 <= j < k ==>
                 var p := ChainPos(b, off, j);
                 && Check(versions, b, p).Good?
                 && (EntryAt(b, p).size <= EntryAt(b, p).available ==> Survives(versions, b, Splice(b, at, data), p))
  {
    hide Check, EntryAt, Splice, Yields, Survives;
    var at := SearchFrom(versions, prios, b, priority, required, off).offset;
    k := SearchFindsFirst(versions, prios, b, priority, required, off);
    forall j | 0 <= j < k
      ensures var p := ChainPos(b, off, j);
              && Check(versions, b, p).Good?
              && (EntryAt(b, p).size <= EntryAt(b, p).available ==> Survives(versions, b, Splice(b, at, data), p))
    {
      var p := ChainPos(b, off, j);
      assert !Stops(versions, prios, b, priority, required, p);
      ChainAdvances(b, off, j, k);
      if EntryAt(b, p).size <= EntryAt(b, p).available { EarlierSurvives(versions, b, p, at, data); }
    }
  }
}
