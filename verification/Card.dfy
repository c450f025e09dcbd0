/** The SD card: an array of blocks behind reads and writes that may fail. The
    `script` decides the fate of each coming transfer, so a theorem for every
    script covers every pattern of faults; a failed write may leave any mixture
    of old and new bytes, which also makes it a model of losing power. */
module Card {
  import opened Bytes

  datatype Io = Pass | Fail(mask: seq<bool>)

  type Blocks = s: seq<Block> | |s| <= 0xFFFF_FFFF witness []

  datatype Card = Card(blocks: Blocks, script: seq<Io>)

  function NextIo(c: Card): Io {
    if |c.script| == 0 then Pass else c.script[0]
  }

  function Spent(c: Card): Card {
    if |c.script| == 0 then c else c.(script := c.script[1..])
  }

  /** Does the next transfer of block `b` succeed? */
  predicate Passes(c: Card, b: nat) {
    b < |c.blocks| && NextIo(c).Pass?
  }

  function Write(c: Card, b: nat, data: Block): (r: Card)
    ensures |r.blocks| == |c.blocks|
    ensures forall i :: 0 <= i < |c.blocks| && i != b ==> r.blocks[i] == c.blocks[i]
    ensures Passes(c, b) ==> r.blocks[b] == data
  {
    if b >= |c.blocks| then Spent(c)
    else
      match NextIo(c)
      case Pass => Spent(c).(blocks := c.blocks[b := data])
      case Fail(mask) => Spent(c).(blocks := c.blocks[b := Mix(c.blocks[b], data, mask)])
  }
}
