/** The DMA channel pool and the descriptor chains of `utility/dma.c`. */
module Dma {
  const CHANNELS := 5

  // ----- the channel bitmask -----

  /** `(mask >> i) & 1`. */
  predicate Bit(mask: nat, i: nat)
    decreases i
  {
    if i == 0 then mask % 2 == 1 else Bit(mask / 2, i - 1)
  }

  /** `mask | (1 << i)`. */
  function SetBit(mask: nat, i: nat): nat
    decreases i
  {
    if i == 0 then mask - mask % 2 + 1 else 2 * SetBit(mask / 2, i - 1) + mask % 2
  }

  /** `mask & ~(1 << i)`. */
  function ClearBit(mask: nat, i: nat): nat
    decreases i
  {
    if i == 0 then mask - mask % 2 else 2 * ClearBit(mask / 2, i - 1) + mask % 2
  }

  /** How many of the lowest `k` bits are set. */
  function Ones(mask: nat, k: nat): (n: nat)
    ensures n <= k
    decreases k
  {
    if k == 0 then 0 else mask % 2 + Ones(mask / 2, k - 1)
  }

  function Shifted(mask: nat, i: nat): nat
    decreases i
  {
    if i == 0 then mask else Shifted(mask, i - 1) / 2
  }

  lemma {:induction false} ShiftedBit(mask: nat, i: nat, k: nat)
    ensures Bit(Shifted(mask, i), k) == Bit(mask, i + k)
    decreases i
  {
    if i > 0 {
      ShiftedBit(mask, i - 1, k + 1);
    }
  }

  lemma {:induction false} SetBits(mask: nat, i: nat, k: nat)
    ensures Bit(SetBit(mask, i), k) <==> k == i || Bit(mask, k)
    decreases i
  {
    var m := SetBit(mask, i);
    if i == 0 {
      assert m / 2 == mask / 2 && m % 2 == 1;
    } else {
      assert m / 2 == SetBit(mask / 2, i - 1) && m % 2 == mask % 2;
      if k > 0 { SetBits(mask / 2, i - 1, k - 1); }
    }
  }

  lemma {:induction false} ClearBits(mask: nat, i: nat, k: nat)
    ensures Bit(ClearBit(mask, i), k) <==> k != i && Bit(mask, k)
    decreases i
  {
    var m := ClearBit(mask, i);
    if i == 0 {
      assert m / 2 == mask / 2 && m % 2 == 0;
    } else {
      assert m / 2 == ClearBit(mask / 2, i - 1) && m % 2 == mask % 2;
      if k > 0 { ClearBits(mask / 2, i - 1, k - 1); }
    }
  }

  /** Setting a clear bit adds one, clearing a set bit takes one away. */
  lemma {:induction false} SetCounts(mask: nat, i: nat, k: nat)
    requires i < k
    ensures Ones(SetBit(mask, i), k) == Ones(mask, k) + if Bit(mask, i) then 0 else 1
    decreases i
  {
    var m := SetBit(mask, i);
    if i == 0 {
      assert m / 2 == mask / 2 && m % 2 == 1;
    } else {
      assert m / 2 == SetBit(mask / 2, i - 1) && m % 2 == mask % 2;
      SetCounts(mask / 2, i - 1, k - 1);
    }
  }

  lemma {:induction false} ClearCounts(mask: nat, i: nat, k: nat)
    requires i < k
    ensures Ones(ClearBit(mask, i), k) == Ones(mask, k) - if Bit(mask, i) then 1 else 0
    decreases i
  {
    var m := ClearBit(mask, i);
    if i == 0 {
      assert m / 2 == mask / 2 && m % 2 == 0;
    } else {
      assert m / 2 == ClearBit(mask / 2, i - 1) && m % 2 == mask % 2;
      ClearCounts(mask / 2, i - 1, k - 1);
    }
  }

  function Power(i: nat): (p: nat)
    ensures p > 0
  {
    if i == 0 then 1 else 2 * Power(i - 1)
  }

  /** The bits are those of the number: setting a clear one adds `1 << i`,
      clearing a set one takes it away, and otherwise the mask stays. */
  lemma {:induction false} BitsAreBinary(mask: nat, i: nat)
    ensures SetBit(mask, i) == if Bit(mask, i) then mask else mask + Power(i)
    ensures if Bit(mask, i) then mask >= Power(i) && ClearBit(mask, i) == mask - Power(i) else ClearBit(mask, i) == mask
    decreases i
  {
    if i > 0 {
      BitsAreBinary(mask / 2, i - 1);
      assert mask == 2 * (mask / 2) + mask % 2;
    }
  }

  ghost predicate AllSet(mask: nat, k: nat) {
    forall i :: 0 <= i < k ==> Bit(mask, i)
  }

  lemma AllSetStep(mask: nat, k: nat)
    requires k > 0
    ensures AllSet(mask, k) <==> mask % 2 == 1 && AllSet(mask / 2, k - 1)
  {
    if AllSet(mask, k) {
      assert Bit(mask, 0);
      forall i | 0 <= i < k - 1
        ensures Bit(mask / 2, i)
      {
        assert Bit(mask, i + 1);
      }
    }
    if mask % 2 == 1 && AllSet(mask / 2, k - 1) {
      forall i | 0 <= i < k
        ensures Bit(mask, i)
      {
        if i > 0 { assert Bit(mask / 2, i - 1); }
      }
    }
  }

  /** All bits are set exactly when the count is full. */
  lemma {:induction false} FullCount(mask: nat, k: nat)
    ensures Ones(mask, k) == k <==> AllSet(mask, k)
    decreases k
  {
    if k > 0 {
      AllSetStep(mask, k);
      FullCount(mask / 2, k - 1);
    }
  }

  // ----- descriptor chains -----

  class Descriptor {
    var next: Descriptor?
  }

  datatype Status = Ok | Busy | NotFound | NotInitialized

  class Resource {
    var channel: nat
    var busy: bool
    var descriptor: Descriptor?
    ghost var chain: seq<Descriptor>

    constructor ()
      ensures Linked() && chain == [] && !busy
    {
      channel, busy, descriptor, chain := 0, false, null, [];
    }

    /** The descriptors are linked in the chain's order, without a cycle, and
        the last one is terminated. */
    ghost predicate Linked()
      reads this, chain
    {
      && (descriptor == if |chain| == 0 then null else chain[0])
      && (forall i :: 0 <= i < |chain| - 1 ==> chain[i].next == chain[i + 1])
      && (|chain| > 0 ==> chain[|chain| - 1].next == null)
      && (forall i, k :: 0 <= i < k < |chain| ==> chain[i] != chain[k])
    }

    /** The links lead through the chain in order; its end is left open. */
    ghost predicate Threaded()
      reads this, chain
    {
      && (descriptor == if |chain| == 0 then null else chain[0])
      && forall i :: 0 <= i < |chain| - 1 ==> chain[i].next == chain[i + 1]
    }

    /** `dma_add_descriptor`: the walk ends, earlier descriptors keep their
        order and the last of them now leads to the new one. The chain is well
        linked again if and only if the new descriptor was terminated and not
        yet part of it. */
    method AddDescriptor(d: Descriptor) returns (status: Status)
      requires Linked()
      modifies this`descriptor, this`chain, chain
      ensures status == if busy then Busy else Ok
      ensures chain == if busy then old(chain) else old(chain) + [d]
      ensures Threaded() && busy == old(busy)
      ensures Linked() <==> busy || old(d.next == null && d !in chain)
    {
      if busy {
        return Busy;
      }
      if descriptor == null {
        descriptor := d;
      } else {
        var last := descriptor;
        ghost var i := 0;
        while last.next != null
          invariant 0 <= i < |chain| && last == chain[i] && Linked()
          invariant last.next == if i + 1 < |chain| then chain[i + 1] else null
          decreases |chain| - i
        {
          last := last.next;
          i := i + 1;
        }
        assert i == |chain| - 1;
        assert forall k :: 0 <= k < |chain| - 1 ==> chain[k] != last;
        last.next := d;
        assert forall k :: 0 <= k < |chain| - 1 ==> chain[k].next == chain[k + 1];
      }
      ghost var was := chain;
      chain := chain + [d];
      assert forall k :: 0 <= k < |was| ==> chain[k] == was[k];
      if d in was {
        ghost var k :| 0 <= k < |was| && was[k] == d;
        assert chain[k] == chain[|was|];
      }
      return Ok;
    }
  }

  // ----- the pool -----

  class Pool {
    var taken: nat
    var free: nat
    const active: array<Resource?>

    /** The bookkeeping: free channels and set bits make five, and a slot is
        taken exactly when its bit is set. */
    ghost predicate Valid()
      reads this, active
    {
      && active.Length == CHANNELS
      && free + Ones(taken, CHANNELS) == CHANNELS
      && forall i :: 0 <= i < CHANNELS ==> (active[i] != null <==> Bit(taken, i))
    }

    /** Every resource in the pool stands in its own channel's slot, so no two share one. */
    ghost predicate Owned()
      requires Valid()
      reads this, active, active[..]
    {
      forall i :: 0 <= i < CHANNELS && active[i] != null ==> active[i].channel == i
    }

    constructor ()
      ensures Valid() && Owned() && fresh(active) && free == CHANNELS
    {
      taken, free := 0, CHANNELS;
      active := new Resource?[CHANNELS](i => null);
      new;
      NoBits();
    }

    /** `_dma_find_first_free_channel_and_allocate`: the lowest free channel, if any. */
    method FindFirstFree() returns (found: bool, count: nat)
      requires active.Length == CHANNELS && free + Ones(taken, CHANNELS) == CHANNELS
      modifies this`taken, this`free
      ensures free + Ones(taken, CHANNELS) == CHANNELS
      ensures found <==> exists i :: 0 <= i < CHANNELS && !Bit(old(taken), i)
      ensures found ==> count < CHANNELS && !Bit(old(taken), count)
                        && (forall i :: 0 <= i < count ==> Bit(old(taken), i))
                        && taken == SetBit(old(taken), count) && free == old(free) - 1
      ensures !found ==> taken == old(taken) && free == old(free) == 0
    {
      hide Ones, SetBit;
      var tmp := taken;
      count := 0;
      found := false;
      while count < CHANNELS
        invariant 0 <= count <= CHANNELS && !found && taken == old(taken) && free == old(free)
        invariant tmp == Shifted(taken, count)
        invariant forall i :: 0 <= i < count ==> Bit(taken, i)
      {
        ShiftedBit(taken, count, 0);
        if tmp % 2 != 1 {
          SetCounts(taken, count, CHANNELS);
          taken := SetBit(taken, count);
          free := free - 1;
          return true, count;
        }
        tmp := tmp / 2;
        count := count + 1;
      }
      FullCount(taken, CHANNELS);
    }

    /** `dma_allocate`. */
    method Allocate(resource: Resource) returns (status: Status)
      requires Valid()
      modifies this`taken, this`free, active, resource`channel, resource`descriptor, resource`chain
      ensures Valid()
      ensures status == if old(free) > 0 then Ok else NotFound
      ensures status.Ok? ==>
                && resource.channel < CHANNELS && !Bit(old(taken), resource.channel)
                && (forall i :: 0 <= i < resource.channel ==> Bit(old(taken), i))
                && free == old(free) - 1 && active[resource.channel] == resource
                && (forall i :: 0 <= i < CHANNELS && i != resource.channel ==> active[i] == old(active[i]))
                && resource.chain == [] && resource.Linked()
      ensures status.NotFound? ==>
                active[..] == old(active[..]) && free == 0 && resource.channel == old(resource.channel)
      ensures status.Ok? && old(Owned()) ==> (Owned() <==> old(resource !in active[..]))
      ensures status.NotFound? && old(Owned()) ==> Owned()
    {
      FullCount(taken, CHANNELS);
      var found, channel := FindFirstFree();
      if !found {
        return NotFound;
      }
      forall i | 0 <= i < CHANNELS
        ensures Bit(taken, i) <==> i == channel || Bit(old(taken), i)
      {
        SetBits(old(taken), channel, i);
      }
      resource.channel := channel;
      resource.descriptor := null;
      resource.chain := [];
      active[channel] := resource;
      return Ok;
    }

    /** `dma_free`. */
    method Free(resource: Resource) returns (status: Status)
      requires Valid() && resource.channel < CHANNELS
      modifies this`taken, this`free, active
      ensures Valid()
      ensures status
              == (if resource.busy then Busy else if !Bit(old(taken), resource.channel) then NotInitialized else Ok)
      ensures status.Ok? ==>
                && free == old(free) + 1 && active[resource.channel] == null
                && forall i :: 0 <= i < CHANNELS && i != resource.channel ==> active[i] == old(active[i])
      ensures !status.Ok? ==> active[..] == old(active[..]) && taken == old(taken) && free == old(free)
      ensures old(Owned()) ==> Owned()
    {
      if resource.busy {
        return Busy;
      }
      if !Bit(taken, resource.channel) {
        return NotInitialized;
      }
      ClearCounts(taken, resource.channel, CHANNELS);
      forall i | 0 <= i < CHANNELS
        ensures Bit(ClearBit(taken, resource.channel), i) <==> i != resource.channel && Bit(taken, i)
      {
        ClearBits(taken, resource.channel, i);
      }
      taken := ClearBit(taken, resource.channel);
      free := free + 1;
      active[resource.channel] := null;
      return Ok;
    }
  }

  lemma NoBits()
    ensures Ones(0, CHANNELS) == 0 && forall i :: 0 <= i < CHANNELS ==> !Bit(0, i)
  {
    forall i | 0 <= i < CHANNELS
      ensures !Bit(0, i)
    {
      NoBit(i);
    }
  }

  lemma {:induction false} NoBit(i: nat)
    ensures !Bit(0, i)
  {
    if i > 0 { NoBit(i - 1); }
  }
}
