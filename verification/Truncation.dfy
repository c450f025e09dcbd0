/** Truncating again and again: versions are sixteen bits wide. */
module Truncation {
  import opened Bytes
  import opened Header
  import opened Entry
  import opened Fs

  /** `n` truncations of file `f` in a row. */
  ghost function TruncateTimes(s: Fs, f: nat, n: nat): Fs
    requires f < 4
  {
    if n == 0 then s else Truncate(TruncateTimes(s, f, n - 1), f)
  }

  lemma OneMore(v: u16, n: nat)
    ensures Inc16((v + n) % 0x1_0000) == (v + n + 1) % 0x1_0000
  {
  }

  lemma {:induction false} VersionAfter(s: Fs, f: nat, n: nat)
    requires f < 4
    ensures TruncateTimes(s, f, n).header.files[f].version == (s.header.files[f].version + n) % 0x1_0000
    ensures forall g :: 0 <= g < 4 && g != f ==> TruncateTimes(s, f, n).header.files[g] == s.header.files[g]
    ensures TruncateTimes(s, f, n).header.block == s.header.block
  {
    if n > 0 {
      VersionAfter(s, f, n - 1);
      OneMore(s.header.files[f].version, n - 1);
    }
  }

  /** An entry written before `n` truncations of its file passes the check
      afterwards if and only if `n` is a multiple of 65536, and is stepped over
      by its own length either way; entries of other files are not affected. */
  lemma TruncationsComeRound(s: Fs, f: nat, n: nat, b: Block, off: nat, r: Rec)
    requires f < 4 && Carries(b, off, r) && r.version == s.header.files[r.file].version
    ensures var v := Versions(TruncateTimes(s, f, n).header);
            Check(v, b, off) == if r.file != f || n % 0x1_0000 == 0 then Good else Status.Crc
    ensures Occupied(b, off) == |RecBytes(r)|
  {
    hide Check, Carries, RecBytes, Occupied, EntryAt, TruncateTimes;
    VersionAfter(s, f, n);
    TruncationIsExact(Versions(TruncateTimes(s, f, n).header), b, off, r);
    Round(s.header.files[f].version, n);
  }

  lemma Round(v: u16, n: nat)
    ensures (v + n) % 0x1_0000 == v <==> n % 0x1_0000 == 0
  {
    var q, r := n / 0x1_0000, n % 0x1_0000;
    assert v + n == 0x1_0000 * q + (v + r);
    if v + r < 0x1_0000 {
      assert (v + n) % 0x1_0000 == v + r;
    } else {
      assert v + n == 0x1_0000 * (q + 1) + (v + r - 0x1_0000);
      assert (v + n) % 0x1_0000 == v + r - 0x1_0000;
    }
  }
}
