/** What a block holds: a chain of records, then zeros. */
module Layout {
  import opened Bytes
  import opened Entry

  /** The bytes of a chain of records. */
  function Encode(rs: seq<Rec>): seq<byte> {
    if |rs| == 0 then [] else Encode(rs[..|rs| - 1]) + RecBytes(rs[|rs| - 1])
  }

  /** Where record `k` of the chain begins. */
  function Off(rs: seq<Rec>, k: nat): nat
    requires k <= |rs|
  {
    |Encode(rs[..k])|
  }

  /** The block begins with the chain. */
  ghost predicate Holds(b: Block, rs: seq<Rec>) {
    |Encode(rs)| <= 512 && b[..|Encode(rs)|] == Encode(rs)
  }

  /** The block is the chain followed by zeros. */
  ghost predicate Full(b: Block, rs: seq<Rec>) {
    Holds(b, rs) && forall i :: |Encode(rs)| <= i < 512 ==> b[i] == 0
  }

  lemma {:induction false} EncodePrefix(rs: seq<Rec>, k: nat)
    requires k <= |rs|
    ensures Off(rs, k) <= |Encode(rs)| && Encode(rs)[..Off(rs, k)] == Encode(rs[..k])
  {
    if k == |rs| {
      assert rs[..k] == rs;
    } else {
      EncodePrefix(rs[..|rs| - 1], k);
      assert rs[..|rs| - 1][..k] == rs[..k];
    }
  }

  lemma OffStep(rs: seq<Rec>, k: nat)
    requires k < |rs|
    ensures Off(rs, k + 1) == Off(rs, k) + |RecBytes(rs[k])|
    ensures Encode(rs[..k + 1]) == Encode(rs[..k]) + RecBytes(rs[k])
  {
    hide RecBytes;
    assert rs[..k + 1][..k] == rs[..k];
  }

  lemma OffEnd(rs: seq<Rec>)
    ensures Off(rs, |rs|) == |Encode(rs)|
  {
    assert rs[..|rs|] == rs;
  }

  lemma {:induction false} OffMonotone(rs: seq<Rec>, j: nat, k: nat)
    requires j <= k <= |rs|
    ensures Off(rs, j) <= Off(rs, k) && (j < k ==> Off(rs, j) < Off(rs, k))
    decreases k - j
  {
    if j < k {
      OffStep(rs, j);
      OffMonotone(rs, j + 1, k);
    }
  }

  lemma HoldsPrefix(b: Block, rs: seq<Rec>, k: nat)
    requires Holds(b, rs) && k <= |rs|
    ensures Holds(b, rs[..k])
  {
    hide Encode;
    EncodePrefix(rs, k);
    assert b[..Off(rs, k)] == b[..|Encode(rs)|][..Off(rs, k)];
  }

  /** Every record of the chain sits whole at its place. */
  lemma HeldRecord(b: Block, rs: seq<Rec>, k: nat)
    requires k < |rs| && Holds(b, rs[..k + 1])
    ensures Carries(b, Off(rs, k), rs[k])
    ensures Off(rs, k + 1) == Off(rs, k) + |RecBytes(rs[k])| <= 512
  {
    hide RecBytes, Encode;
    OffStep(rs, k);
    var e := Encode(rs[..k + 1]);
    assert b[Off(rs, k)..|e|] == b[..|e|][Off(rs, k)..] == RecBytes(rs[k]);
  }

  lemma ZeroBlockFull()
    ensures Full(ZERO_BLOCK, [])
  {
  }

  /** Writing one more record at the end of the chain extends the chain. */
  lemma PutExtends(b: Block, rs: seq<Rec>, r: Rec)
    requires Full(b, rs) && |Encode(rs)| + |RecBytes(r)| <= 512
    ensures Full(Splice(b, |Encode(rs)|, RecBytes(r)), rs + [r])
    ensures Encode(rs + [r]) == Encode(rs) + RecBytes(r)
  {
    hide RecBytes;
    assert (rs + [r])[..|rs|] == rs;
    var c := Splice(b, |Encode(rs)|, RecBytes(r));
    assert c[..|Encode(rs + [r])|] == Encode(rs) + RecBytes(r);
  }
}
