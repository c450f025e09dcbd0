/** The nibble-table CRC-16 of `crc16_update`, and its algebra. */
module Crc {
  import opened Bytes

  const TABLE: seq<u16> := [
    0x0000, 0xCC01, 0xD801, 0x1400, 0xF001, 0x3C00, 0x2800, 0xE401,
    0xA001, 0x6C00, 0x7800, 0xB401, 0x5000, 0x9C01, 0x8801, 0x4400
  ]

  /** Exclusive or of two unsigned words, bit by bit. */
  function Xor(a: nat, b: nat): nat {
    if a == 0 && b == 0 then 0
    else 2 * Xor(a / 2, b / 2) + if Odd(a) == Odd(b) then 0 else 1
  }

  predicate Odd(a: nat) { a % 2 == 1 }

  function Xor16(a: u16, b: u16): u16 {
    XorBound(a, b);
    Xor(a, b)
  }

  /** One table step: fold the four bits of `n` into the checksum. */
  function Nibble(crc: u16, n: nat): u16
    requires n < 16
  {
    Xor16(Xor16(crc / 16, TABLE[crc % 16]), TABLE[n])
  }

  /** One turn of the loop: low nibble first, then the high one. */
  function Step(crc: u16, b: byte): u16 {
    Nibble(Nibble(crc, b % 16), b / 16)
  }

  /** The checksum of `data` from a start value, as a left fold. */
  function Crc16(start: u16, data: seq<byte>): u16 {
    if |data| == 0 then start else Step(Crc16(start, data[..|data| - 1]), data[|data| - 1])
  }

  method Crc16Update(start: u16, p: seq<byte>, n: nat) returns (crc: u16)
    requires n <= |p|
    ensures crc == Crc16(start, p[..n])
  {
    crc := start;
    var i := 0;
    while i < n
      invariant 0 <= i <= n
      invariant crc == Crc16(start, p[..i])
    {
      crc := Turn(crc, p[i]);
      assert p[..i + 1][..i] == p[..i];
      i := i + 1;
    }
  }

  /** The body of the loop: both halves of one byte. */
  method Turn(start: u16, b: byte) returns (crc: u16)
    ensures crc == Step(start, b)
  {
    hide Xor;
    crc := HalfTurn(start, b % 16);
    crc := HalfTurn(crc, b / 16 % 16);
  }

  method HalfTurn(start: u16, n: nat) returns (crc: u16)
    requires n < 16
    ensures crc == Nibble(start, n)
  {
    var r := TABLE[start % 16];
    crc := start / 16;
    crc := Xor16(Xor16(crc, r), TABLE[n]);
  }

  // ----- exclusive or -----

  /** `a >> k`. */
  function Halve(a: nat, k: nat): nat
    decreases k
  {
    if k == 0 then a else Halve(a / 2, k - 1)
  }

  lemma {:induction false} HalveAdds(a: nat, j: nat, k: nat)
    ensures Halve(Halve(a, j), k) == Halve(a, j + k)
    decreases j
  {
    if j > 0 { HalveAdds(a / 2, j - 1, k); }
  }

  lemma Halve4(a: nat)
    ensures Halve(a, 4) == a / 16
  {
    assert Halve(a, 4) == Halve(a / 2, 3) == Halve(a / 2 / 2, 2) == Halve(a / 2 / 2 / 2, 1);
  }

  lemma Halve12(a: nat)
    ensures Halve(a, 8) == a / 256 && Halve(a, 12) == a / 4096
  {
    Halve4(a);
    Halve4(a / 16);
    Halve4(a / 256);
    HalveAdds(a, 4, 4);
    HalveAdds(a, 8, 4);
  }

  lemma Halve16(a: nat)
    ensures Halve(a, 16) == a / 0x1_0000
  {
    Halve12(a);
    Halve4(a / 4096);
    HalveAdds(a, 12, 4);
  }

  lemma {:induction false} XorZero(a: nat)
    ensures Xor(a, 0) == a && Xor(0, a) == a
  {
    if a > 0 { XorZero(a / 2); }
  }

  lemma {:induction false} XorSelf(a: nat)
    ensures Xor(a, a) == 0
  {
    if a > 0 { XorSelf(a / 2); }
  }

  lemma {:induction false} XorCommutes(a: nat, b: nat)
    ensures Xor(a, b) == Xor(b, a)
    decreases a + b
  {
    if a + b > 0 { XorCommutes(a / 2, b / 2); }
  }

  lemma XorBits(a: nat, b: nat)
    ensures Odd(Xor(a, b)) <==> (Odd(a) != Odd(b))
    ensures Xor(a, b) / 2 == Xor(a / 2, b / 2)
  {
    var q := Xor(a / 2, b / 2);
    if a == 0 && b == 0 {
      assert q == 0;
    } else {
      assert Xor(a, b) == 2 * q + if Odd(a) == Odd(b) then 0 else 1;
    }
  }

  lemma SameBits(x: nat, y: nat)
    requires Odd(x) == Odd(y) && x / 2 == y / 2
    ensures x == y
  {
  }

  lemma {:induction false} XorAssociates(a: nat, b: nat, c: nat)
    ensures Xor(Xor(a, b), c) == Xor(a, Xor(b, c))
    decreases a + b + c
  {
    if a + b + c > 0 {
      XorAssociates(a / 2, b / 2, c / 2);
      XorAssociatesBit(a, b, c);
      SameBits(Xor(Xor(a, b), c), Xor(a, Xor(b, c)));
    }
  }

  lemma XorAssociatesBit(a: nat, b: nat, c: nat)
    ensures Odd(Xor(Xor(a, b), c)) == Odd(Xor(a, Xor(b, c)))
    ensures Xor(Xor(a, b), c) / 2 == Xor(Xor(a / 2, b / 2), c / 2)
    ensures Xor(a, Xor(b, c)) / 2 == Xor(a / 2, Xor(b / 2, c / 2))
  {
    XorBits(a, b);
    XorBits(b, c);
    XorBits(Xor(a, b), c);
    XorBits(a, Xor(b, c));
  }

  lemma {:induction false} XorCancels(a: nat, b: nat, c: nat)
    requires Xor(a, c) == Xor(b, c)
    ensures a == b
    decreases a + b
  {
    if a + b > 0 {
      XorBits(a, c);
      XorBits(b, c);
      XorCancels(a / 2, b / 2, c / 2);
      SameBits(a, b);
    }
  }

  lemma {:induction false} XorHalves(a: nat, b: nat, k: nat)
    ensures Halve(Xor(a, b), k) == Xor(Halve(a, k), Halve(b, k))
    decreases k
  {
    if k > 0 {
      XorBits(a, b);
      XorHalves(a / 2, b / 2, k - 1);
    }
  }

  lemma XorBound(a: u16, b: u16)
    ensures Xor(a, b) < 0x1_0000
  {
    XorHalves(a, b, 16);
    Halve16(a);
    Halve16(b);
    Halve16(Xor(a, b));
  }

  lemma XorPair(x: nat, y: nat, p: nat, q: nat)
    requires p < 2 && q < 2
    ensures Xor(2 * x + p, 2 * y + q) == 2 * Xor(x, y) + if p == q then 0 else 1
  {
    var l, r := 2 * x + p, 2 * y + q;
    assert l / 2 == x && r / 2 == y && Odd(l) == (p == 1) && Odd(r) == (q == 1);
    XorBits(l, r);
  }

  /** Exclusive or, two and four bits at a time. */
  lemma XorQuad(a: nat, b: nat, m: nat, n: nat)
    requires m < 4 && n < 4
    ensures Xor(4 * a + m, 4 * b + n) == 4 * Xor(a, b) + Xor(m, n)
  {
    hide Xor;
    XorPair(a, b, m / 2, n / 2);
    XorPair(0, 0, m / 2, n / 2);
    XorZero(0);
    XorPair(2 * a + m / 2, 2 * b + n / 2, m % 2, n % 2);
    XorPair(m / 2, n / 2, m % 2, n % 2);
  }

  lemma XorNibble(a: nat, b: nat, m: nat, n: nat)
    requires m < 16 && n < 16
    ensures Xor(16 * a + m, 16 * b + n) == 16 * Xor(a, b) + Xor(m, n)
  {
    hide Xor;
    XorFourBits(a, b, m / 4, m % 4, n / 4, n % 4);
  }

  lemma XorFourBits(a: nat, b: nat, m1: nat, m0: nat, n1: nat, n0: nat)
    requires m1 < 4 && m0 < 4 && n1 < 4 && n0 < 4
    ensures Xor(16 * a + 4 * m1 + m0, 16 * b + 4 * n1 + n0) == 16 * Xor(a, b) + Xor(4 * m1 + m0, 4 * n1 + n0)
  {
    hide Xor;
    XorQuadOf(4 * a + m1, 4 * b + n1, m0, n0, 4 * Xor(a, b) + Xor(m1, n1)) by { XorQuad(a, b, m1, n1); }
    XorQuad(m1, n1, m0, n0);
  }

  lemma XorQuadOf(p: nat, q: nat, m: nat, n: nat, r: nat)
    requires m < 4 && n < 4 && Xor(p, q) == r
    ensures Xor(4 * p + m, 4 * q + n) == 4 * r + Xor(m, n)
  {
    XorQuad(p, q, m, n);
  }

  /** Words without common bits are merged by addition. */
  lemma XorSixteen(h: nat, n: nat)
    requires n < 16
    ensures Xor(16 * h, n) == 16 * h + n
  {
    hide Xor;
    XorNibble(h, 0, 0, n);
    XorZero(h);
    XorZero(n);
  }

  // ----- injectivity in the start value and in the byte -----

  /** The top nibbles of the table are all distinct. */
  lemma TableTops(i: nat, j: nat)
    requires i < 16 && j < 16 && TABLE[i] / 4096 == TABLE[j] / 4096
    ensures i == j
  {
  }

  /** The top nibble of a step shows which table row was used. */
  lemma NibbleTop(c: u16)
    ensures Xor(c / 16, TABLE[c % 16]) / 4096 == TABLE[c % 16] / 4096
  {
    var t := TABLE[c % 16];
    XorHalves(c / 16, t, 12);
    Halve12(c / 16);
    Halve12(t);
    Halve12(Xor(c / 16, t));
    XorZero(t / 4096);
  }

  lemma NibbleStartInjective(c: u16, d: u16, n: nat)
    requires n < 16 && Nibble(c, n) == Nibble(d, n)
    ensures c == d
  {
    XorCancels(Xor(c / 16, TABLE[c % 16]), Xor(d / 16, TABLE[d % 16]), TABLE[n]);
    NibbleTop(c);
    NibbleTop(d);
    TableTops(c % 16, d % 16);
    XorCancels(c / 16, d / 16, TABLE[c % 16]);
  }

  lemma StepInjective(c: u16, d: u16, b: byte)
    requires Step(c, b) == Step(d, b)
    ensures c == d
  {
    NibbleStartInjective(Nibble(c, b % 16), Nibble(d, b % 16), b / 16);
    NibbleStartInjective(c, d, b % 16);
  }

  /** For fixed data the checksum is injective in its start value. */
  lemma {:induction false} StartInjective(s: u16, t: u16, data: seq<byte>)
    requires Crc16(s, data) == Crc16(t, data)
    ensures s == t
  {
    if |data| > 0 {
      var front := data[..|data| - 1];
      StepInjective(Crc16(s, front), Crc16(t, front), data[|data| - 1]);
      StartInjective(s, t, front);
    }
  }

  lemma {:induction false} Concatenates(start: u16, a: seq<byte>, b: seq<byte>)
    ensures Crc16(start, a + b) == Crc16(Crc16(start, a), b)
  {
    if |b| == 0 {
      assert a + b == a;
    } else {
      Concatenates(start, a, b[..|b| - 1]);
      assert (a + b)[..|a + b| - 1] == a + b[..|b| - 1];
    }
  }

  /** Changing exactly one byte always changes the checksum. */
  lemma OneByteChanges(start: u16, a: seq<byte>, x: byte, y: byte, b: seq<byte>)
    requires x != y
    ensures Crc16(start, a + [x] + b) != Crc16(start, a + [y] + b)
  {
    Concatenates(start, a + [x], b);
    Concatenates(start, a + [y], b);
    if Crc16(start, a + [x] + b) == Crc16(start, a + [y] + b) {
      StartInjective(Crc16(start, a + [x]), Crc16(start, a + [y]), b);
      assert (a + [x])[..|a|] == a && (a + [y])[..|a|] == a;
      StepDataInjective(Crc16(start, a), x, y);
    }
  }

  lemma StepDataInjective(c: u16, x: byte, y: byte)
    requires Step(c, x) == Step(c, y)
    ensures x == y
  {
    ByteIsShifts(c, x);
    ByteIsShifts(c, y);
    ShiftsInjective(Xor16(c, x), Xor16(c, y), 8);
    XorCommutes(c, x);
    XorCommutes(c, y);
    XorCancels(x, y, c);
  }

  /** A run of zero bytes keeps the zero checksum at zero ... */
  lemma {:induction false} ZeroFixed(n: nat)
    ensures Crc16(0, Zeros(n)) == 0
  {
    if n > 0 {
      ZeroFixed(n - 1);
      assert Zeros(n)[..n - 1] == Zeros(n - 1);
      assert Nibble(0, 0) == 0;
    }
  }

  /** ... and therefore no other start value ever reaches zero over it. */
  lemma ZeroesNeverPass(start: u16, n: nat)
    requires start != 0
    ensures Crc16(start, Zeros(n)) != 0
  {
    ZeroFixed(n);
    if Crc16(start, Zeros(n)) == 0 { StartInjective(start, 0, Zeros(n)); }
  }

  // ----- the bit-at-a-time reflected CRC with polynomial 0xA001 -----

  function Shift(c: u16): u16 {
    if c % 2 == 1 then Xor16(c / 2, 0xA001) else c / 2
  }

  function Shifts(c: u16, k: nat): u16
    decreases k
  {
    if k == 0 then c else Shifts(Shift(c), k - 1)
  }

  function BitCrc(start: u16, data: seq<byte>): u16 {
    if |data| == 0 then start
    else Shifts(Xor16(BitCrc(start, data[..|data| - 1]), data[|data| - 1]), 8)
  }

  lemma ShiftLinear(a: u16, b: u16)
    ensures Shift(Xor16(a, b)) == Xor16(Shift(a), Shift(b))
  {
    XorBits(a, b);
    if a % 2 == 1 && b % 2 == 1 {
      XorTwice(a / 2, b / 2);
    } else if a % 2 == 1 {
      XorOnce(a / 2, b / 2);
    } else if b % 2 == 1 {
      XorAssociates(a / 2, b / 2, 0xA001);
    }
  }

  lemma XorOnce(x: nat, y: nat)
    ensures Xor(Xor(x, 0xA001), y) == Xor(Xor(x, y), 0xA001)
  {
    XorAssociates(x, y, 0xA001);
    XorAssociates(x, 0xA001, y);
    XorCommutes(y, 0xA001);
  }

  lemma XorTwice(x: nat, y: nat)
    ensures Xor(Xor(x, 0xA001), Xor(y, 0xA001)) == Xor(x, y)
  {
    XorAssociates(Xor(x, 0xA001), y, 0xA001);
    XorOnce(x, y);
    XorAssociates(Xor(x, y), 0xA001, 0xA001);
    XorSelf(0xA001);
    XorZero(Xor(x, y));
  }

  lemma {:induction false} ShiftsLinear(a: u16, b: u16, k: nat)
    ensures Shifts(Xor16(a, b), k) == Xor16(Shifts(a, k), Shifts(b, k))
    decreases k
  {
    if k > 0 {
      ShiftLinear(a, b);
      ShiftsLinear(Shift(a), Shift(b), k - 1);
    }
  }

  lemma Halve15(a: nat)
    ensures Halve(a, 15) == a / 0x8000
  {
    Halve12(a);
    HalveAdds(a, 12, 3);
    var t := a / 4096;
    assert Halve(t, 3) == Halve(t / 2, 2) == Halve(t / 2 / 2, 1);
  }

  /** The polynomial's top bit shows whether a shift was taken with or without it. */
  lemma PolynomialTop(c: nat)
    requires c < 0x8000
    ensures Xor(c, 0xA001) >= 0x8000
  {
    XorHalves(c, 0xA001, 15);
    Halve15(c);
    Halve15(0xA001);
    Halve15(Xor(c, 0xA001));
    XorZero(1);
  }

  lemma ShiftInjective(a: u16, b: u16)
    requires Shift(a) == Shift(b)
    ensures a == b
  {
    PolynomialTop(a / 2);
    PolynomialTop(b / 2);
    if a % 2 == 1 && b % 2 == 1 { XorCancels(a / 2, b / 2, 0xA001); }
  }

  lemma {:induction false} ShiftsInjective(a: u16, b: u16, k: nat)
    requires Shifts(a, k) == Shifts(b, k)
    ensures a == b
    decreases k
  {
    if k > 0 {
      ShiftsInjective(Shift(a), Shift(b), k - 1);
      ShiftInjective(a, b);
    }
  }

  lemma {:induction false} ShiftsAdd(c: u16, j: nat, k: nat)
    ensures Shifts(Shifts(c, j), k) == Shifts(c, j + k)
    decreases j
  {
    if j > 0 { ShiftsAdd(Shift(c), j - 1, k); }
  }

  lemma FourShifts(c: u16)
    ensures Shifts(c, 4) == Shift(Shift(Shift(Shift(c))))
  {
    assert Shifts(c, 4) == Shifts(Shift(c), 3) == Shifts(Shift(Shift(c)), 2) == Shifts(Shift(Shift(Shift(c))), 1);
  }

  const TEN: seq<u16> := [10, 11, 8, 9, 14, 15, 12, 13, 2, 3, 0, 1, 6, 7, 4, 5]

  lemma XorTen(u: nat)
    requires u < 16
    ensures Xor(u, 10) == TEN[u]
  {
    hide Xor;
    XorQuad(u / 4, 2, u % 4, 2);
    XorTwo(u / 4);
    XorTwo(u % 4);
  }

  lemma XorTwo(u: nat)
    requires u < 4
    ensures Xor(u, 2) == if u < 2 then u + 2 else u - 2
  {
    hide Xor;
    XorPair(u / 2, 1, u % 2, 0);
    XorPair(0, 0, u / 2, 1);
    XorZero(0);
  }

  /** The polynomial touches the top nibble and the lowest bit only. */
  lemma XorPolynomial(u: nat, v1: nat, v0: nat, l: nat)
    requires u < 16 && v1 < 16 && v0 < 16 && l < 2
    ensures Xor(4096 * u + 256 * v1 + 16 * v0 + l, 0xA001) == 4096 * TEN[u] + 256 * v1 + 16 * v0 + 1 - l
  {
    hide Xor;
    XorTen(u);
    XorClear(u, 10, v1, TEN[u]);
    XorClear(16 * u + v1, 160, v0, 16 * TEN[u] + v1);
    XorNibble(256 * u + 16 * v1 + v0, 2560, l, 1);
    XorPair(0, 0, l, 1);
    XorZero(0);
  }

  lemma XorClear(a: nat, b: nat, m: nat, r: nat)
    requires m < 16 && Xor(a, b) == r
    ensures Xor(16 * a + m, 16 * b) == 16 * r + m
  {
    XorNibble(a, b, m, 0);
    XorZero(m);
  }

  lemma XorPolynomialOf(c: u16)
    requires c % 16 < 2
    ensures Xor(c, 0xA001) == 4096 * TEN[c / 4096] + c % 4096 + 1 - 2 * (c % 16)
  {
    hide Xor;
    var u, r := c / 4096, c % 4096;
    var v1, q := r / 256, r % 256;
    var v0, l := q / 16, q % 16;
    assert c == 4096 * u + 256 * v1 + 16 * v0 + l && l == c % 16;
    XorPolynomial(u, v1, v0, l);
  }

  /** One shift links the rows `2 n` and `n`. */
  lemma RowDown(n: u16)
    requires 1 <= n < 8 && Shifts(2 * n, 4) == TABLE[2 * n]
    ensures Shifts(n, 4) == TABLE[n]
  {
    hide Xor;
    ShiftsAdd(2 * n, 4, 1);
    assert Shift(2 * n) == n;
    assert Shifts(2 * n, 5) == Shifts(n, 4);
    assert Shifts(Shifts(2 * n, 4), 1) == Shift(TABLE[2 * n]);
    ShiftOfRow(n);
  }

  lemma ShiftOfRow(n: u16)
    requires 1 <= n < 8
    ensures Shift(TABLE[2 * n]) == TABLE[n]
  {
    hide Xor;
    match n
    case 1 => XorPolynomialOf(0x6C00);
    case 2 => XorPolynomialOf(0x7800);
    case 4 => XorPolynomialOf(0x5000);
    case 7 => XorPolynomialOf(0x4400);
    case _ =>
  }

  lemma XorEight(n: nat)
    requires n < 8
    ensures Xor(n, 8) == n + 8
  {
    hide Xor;
    XorQuad(n / 4, 2, n % 4, 0);
    XorZero(n % 4);
    XorPair(0, 1, n / 4, 0);
    XorZero(1);
  }

  lemma PolynomialOfRow(n: u16)
    requires 1 <= n < 8
    ensures Xor(TABLE[n], 0xA001) == TABLE[n + 8]
  {
    hide Xor;
    match n
    case 1 => XorPolynomialOf(0xCC01);
    case 2 => XorPolynomialOf(0xD801);
    case 3 => XorPolynomialOf(0x1400);
    case 4 => XorPolynomialOf(0xF001);
    case 5 => XorPolynomialOf(0x3C00);
    case 6 => XorPolynomialOf(0x2800);
    case 7 => XorPolynomialOf(0xE401);
  }

  /** The polynomial links the rows `n` and `n + 8`. */
  lemma RowUp(n: u16)
    requires 1 <= n < 8 && Shifts(n, 4) == TABLE[n] && Shifts(8, 4) == 0xA001
    ensures Shifts(n + 8, 4) == TABLE[n + 8]
  {
    hide Xor;
    XorEight(n);
    ShiftsLinear(n, 8, 4);
    PolynomialOfRow(n);
  }

  lemma FirstRows()
    ensures Shifts(0, 4) == 0 && Shifts(8, 4) == 0xA001
  {
    hide Xor;
    FourShifts(0);
    FourShifts(8);
    XorZero(0xA001);
  }

  lemma TableByShifts()
    ensures forall n: u16 {:trigger TABLE[n]} :: n < 16 ==> Shifts(n, 4) == TABLE[n]
  {
    hide Xor, Shifts, Shift;
    FirstRows();
    RowDown(4); RowDown(2); RowDown(1); RowUp(4);
    RowDown(6); RowDown(3); RowUp(6); RowDown(7);
    RowUp(2); RowDown(5); RowUp(5); RowUp(1); RowUp(3); RowUp(7);
  }

  /** Four shifts of a lone nibble give its table entry. */
  lemma TableIsShifts(n: u16)
    requires n < 16
    ensures Shifts(n, 4) == TABLE[n]
  {
    hide Xor;
    TableByShifts();
    assert TABLE[n] == TABLE[n];
  }

  /** Four shifts of a multiple of sixteen only move it down. */
  lemma ShiftsOfHigh(h: u16)
    requires h < 4096
    ensures Shifts(16 * h, 4) == h
  {
    FourShifts(16 * h);
    assert Shift(16 * h) == 8 * h && Shift(8 * h) == 4 * h && Shift(4 * h) == 2 * h && Shift(2 * h) == h;
  }

  lemma NibbleIsShifts(c: u16, n: u16)
    requires n < 16
    ensures Shifts(Xor16(c, n), 4) == Nibble(c, n)
  {
    hide Xor, Shifts;
    ShiftsLinear(c, n, 4);
    TableIsShifts(n);
    var h, l := c / 16, c % 16;
    XorSixteen(h, l);
    ShiftsLinear(16 * h, l, 4);
    ShiftsOfHigh(h);
    TableIsShifts(l);
  }

  lemma ByteIsShifts(c: u16, b: byte)
    ensures Shifts(Xor16(c, b), 8) == Step(c, b)
  {
    hide Xor, Shifts;
    var h, l := b / 16, b % 16;
    XorSixteen(h, l);
    XorCommutes(16 * h, l);
    XorAssociates(c, l, 16 * h);
    assert Xor16(c, b) == Xor16(Xor16(c, l), 16 * h);
    ShiftsAdd(Xor16(c, b), 4, 4);
    ShiftsLinear(Xor16(c, l), 16 * h, 4);
    NibbleIsShifts(c, l);
    ShiftsOfHigh(h);
    NibbleIsShifts(Nibble(c, l), h);
  }

  /** The table loop computes the reflected CRC-16 with polynomial 0xA001. */
  lemma {:induction false} TableLoopIsBitwise(start: u16, data: seq<byte>)
    ensures Crc16(start, data) == BitCrc(start, data)
  {
    if |data| > 0 {
      var front := data[..|data| - 1];
      TableLoopIsBitwise(start, front);
      ByteIsShifts(Crc16(start, front), data[|data| - 1]);
    }
  }
}
