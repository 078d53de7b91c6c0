// The CRC-32 of the archive writer: a table of 256 words and one lookup per
// byte, proved equal to the shift register that takes one message bit at a
// time (section 8 of RFC 1952).
//
// A word is the unsigned number behind the 32 bits; the signed view the table
// array has of it is never looked at.
module Crc32 {
  import opened Numbers

  type byte = x: int | 0 <= x < 256

  const POLYNOMIAL: nat := 0xEDB88320
  const ONES: nat := 0xFFFFFFFF
  const WORD: nat := 0x1_0000_0000

  /******* Exclusive or *******/

  function Xor(a: nat, b: nat): nat
    decreases a + b
  {
    if a == 0 then b else if b == 0 then a
    else (if a % 2 == b % 2 then 0 else 1) + 2 * Xor(a / 2, b / 2)
  }

  lemma XorBits(a: nat, b: nat)
    ensures Xor(a, b) / 2 == Xor(a / 2, b / 2)
    ensures Xor(a, b) % 2 == if a % 2 == b % 2 then 0 else 1
  {
  }

  lemma SameBits(a: nat, b: nat)
    requires a / 2 == b / 2 && a % 2 == b % 2
    ensures a == b
  {
  }

  lemma {:induction false} XorCommutes(a: nat, b: nat)
    ensures Xor(a, b) == Xor(b, a)
    decreases a + b
  {
    if a > 0 && b > 0 { XorCommutes(a / 2, b / 2); }
  }

  lemma {:induction false} XorAssociates(a: nat, b: nat, c: nat)
    ensures Xor(Xor(a, b), c) == Xor(a, Xor(b, c))
    decreases a + b + c
  {
    if a > 0 && b > 0 && c > 0 {
      XorBits(a, b);
      XorBits(b, c);
      XorBits(Xor(a, b), c);
      XorBits(a, Xor(b, c));
      XorAssociates(a / 2, b / 2, c / 2);
      SameBits(Xor(Xor(a, b), c), Xor(a, Xor(b, c)));
    }
  }

  lemma {:induction false} XorCancels(a: nat)
    ensures Xor(a, a) == 0
    decreases a
  {
    if a > 0 { XorCancels(a / 2); }
  }

  // (p ^ a) ^ (p ^ b) == a ^ b
  lemma XorTwice(p: nat, a: nat, b: nat)
    ensures Xor(Xor(p, a), Xor(p, b)) == Xor(a, b)
  {
    XorCommutes(p, a);
    XorAssociates(a, p, Xor(p, b));
    XorAssociates(p, p, b);
    XorCancels(p);
  }

  lemma {:induction false} XorBounded(a: nat, b: nat, n: nat)
    requires a < Pow2(n) && b < Pow2(n)
    ensures Xor(a, b) < Pow2(n)
    decreases n
  {
    if n > 0 && a > 0 && b > 0 { XorBounded(a / 2, b / 2, n - 1); }
  }

  /******* The shift register *******/

  // One clock of the register without input.
  function Shift(c: nat): nat {
    if c % 2 == 1 then Xor(POLYNOMIAL, c / 2) else c / 2
  }

  // Message bits enter at the low end, one per clock.
  function Register(c: nat, bits: seq<bool>): nat
    decreases |bits|
  {
    if bits == [] then c else Register(Shift(Xor(c, if bits[0] then 1 else 0)), bits[1..])
  }

  // The n lowest bits of a number, lowest first.
  function LowBits(m: nat, n: nat): seq<bool>
    decreases n
  {
    if n == 0 then [] else [m % 2 == 1] + LowBits(m / 2, n - 1)
  }

  function Bits(data: seq<byte>): seq<bool>
    decreases |data|
  {
    if data == [] then [] else LowBits(data[0], 8) + Bits(data[1..])
  }

  // The definition the fast form has to meet.
  function Crc(data: seq<byte>): nat {
    Xor(Register(ONES, Bits(data)), ONES)
  }

  lemma {:induction false} RegisterConcat(c: nat, a: seq<bool>, b: seq<bool>)
    ensures Register(c, a + b) == Register(Register(c, a), b)
    decreases |a|
  {
    if a == [] {
      assert a + b == b;
    } else {
      assert (a + b)[1..] == a[1..] + b;
      RegisterConcat(Shift(Xor(c, if a[0] then 1 else 0)), a[1..], b);
    }
  }

  lemma {:induction false} BitsConcat(a: seq<byte>, b: seq<byte>)
    ensures Bits(a + b) == Bits(a) + Bits(b)
    decreases |a|
  {
    if a == [] {
      assert a + b == b;
    } else {
      assert (a + b)[1..] == a[1..] + b;
      BitsConcat(a[1..], b);
    }
  }

  /******* Linearity *******/

  lemma ShiftIsLinear(x: nat, y: nat)
    ensures Shift(Xor(x, y)) == Xor(Shift(x), Shift(y))
  {
    XorBits(x, y);
    XorTwice(POLYNOMIAL, x / 2, y / 2);
    XorAssociates(POLYNOMIAL, x / 2, y / 2);
    XorCommutes(x / 2, Xor(POLYNOMIAL, y / 2));
    XorAssociates(POLYNOMIAL, y / 2, x / 2);
    XorCommutes(x / 2, y / 2);
  }

  // n clocks without input.
  function Shifts(c: nat, n: nat): nat
    decreases n
  {
    if n == 0 then c else Shifts(Shift(c), n - 1)
  }

  lemma {:induction false} ShiftsAreLinear(x: nat, y: nat, n: nat)
    ensures Shifts(Xor(x, y), n) == Xor(Shifts(x, n), Shifts(y, n))
    decreases n
  {
    if n > 0 {
      ShiftIsLinear(x, y);
      ShiftsAreLinear(Shift(x), Shift(y), n - 1);
    }
  }

  /******* Eight bits at once *******/

  function Drop(m: nat, n: nat): nat
    decreases n
  {
    if n == 0 then m else Drop(m / 2, n - 1)
  }

  lemma LowBitAlone(m: nat)
    ensures Xor(m % 2, 2 * (m / 2)) == m
  {
  }

  // A word without its low bit only moves down.
  lemma ShiftEven(k: nat)
    ensures Shift(2 * k) == k
  {
  }

  // Mixing a number in and clocking once takes its low bit in.
  lemma ClockOnce(s: nat, m: nat)
    ensures Shift(Xor(s, m)) == Xor(Shift(Xor(s, m % 2)), m / 2)
  {
    hide Xor, Shift;
    LowBitAlone(m);
    XorAssociates(s, m % 2, 2 * (m / 2));
    ShiftIsLinear(Xor(s, m % 2), 2 * (m / 2));
    ShiftEven(m / 2);
  }

  lemma FeedOne(s: nat, m: nat, n: nat)
    requires n > 0
    ensures Register(s, LowBits(m, n)) == Register(Shift(Xor(s, m % 2)), LowBits(m / 2, n - 1))
  {
    hide Xor, Shift;
    assert LowBits(m, n)[1..] == LowBits(m / 2, n - 1);
  }

  // Mixing a whole number in first is the same as feeding its bits one by one.
  lemma {:induction false} BitsAtOnce(s: nat, m: nat, n: nat)
    ensures Shifts(Xor(s, m), n) == Xor(Register(s, LowBits(m, n)), Drop(m, n))
    decreases n
  {
    if n > 0 {
      hide Xor, Shift, Register, LowBits;
      ClockOnce(s, m);
      FeedOne(s, m, n);
      BitsAtOnce(Shift(Xor(s, m % 2)), m / 2, n - 1);
    }
  }

  lemma {:induction false} DropBelow(m: nat, n: nat)
    requires m < Pow2(n)
    ensures Drop(m, n) == 0
    decreases n
  {
    if n > 0 { DropBelow(m / 2, n - 1); }
  }

  lemma {:induction false} DropKeepsHighBits(a: nat, b: nat, n: nat)
    requires b < Pow2(n)
    ensures Drop(Xor(a, b), n) == Drop(a, n)
    decreases n
  {
    if n > 0 {
      XorBits(a, b);
      DropKeepsHighBits(a / 2, b / 2, n - 1);
    }
  }

  lemma DropEight(m: nat)
    ensures Drop(m, 8) == m / 256
  {
    assert Drop(m, 8) == Drop(m / 2, 7) == Drop(m / 2 / 2, 6) == Drop(m / 2 / 2 / 2, 5);
    assert Drop(m, 8) == Drop(m / 16, 4) == Drop(m / 32, 3) == Drop(m / 64, 2) == Drop(m / 128, 1);
  }

  lemma ByteBound()
    ensures Pow2(8) == 256
  {
  }

  lemma WordBound()
    ensures Pow2(31) * 2 == Pow2(32) == WORD
  {
    ByteBound();
    Pow2Adds(8, 8);
    Pow2Adds(16, 16);
  }

  lemma {:induction false} Pow2Adds(m: nat, n: nat)
    ensures Pow2(m + n) == Pow2(m) * Pow2(n)
    decreases m
  {
    if m > 0 {
      Pow2Adds(m - 1, n);
      assert Pow2(m) * Pow2(n) == 2 * (Pow2(m - 1) * Pow2(n));
    }
  }

  // The register takes a whole byte in by mixing it in once and clocking eight times.
  lemma ByteAtOnce(c: nat, b: byte, n: nat)
    requires n == 8
    ensures Register(c, LowBits(b, n)) == Shifts(Xor(c, b), n)
  {
    ByteBound();
    BitsAtOnce(c, b, n);
    DropBelow(b, n);
  }

  lemma TimesPow2(k: nat, n: nat)
    ensures k * Pow2(n) == if n == 0 then k else 2 * (k * Pow2(n - 1))
  {
  }

  lemma {:induction false} ShiftsOfZeros(k: nat, n: nat)
    ensures Shifts(k * Pow2(n), n) == k
    decreases n
  {
    hide Pow2, Shift;
    TimesPow2(k, n);
    if n > 0 {
      ShiftEven(k * Pow2(n - 1));
      ShiftsOfZeros(k, n - 1);
    }
  }

  // A low bit beside an even word.
  lemma XorWithEven(r: nat, high: nat)
    ensures Xor(r, 2 * high) == r % 2 + 2 * Xor(r / 2, high)
  {
    XorBits(r, 2 * high);
  }

  lemma HalfBelow(r: nat, n: nat)
    requires n > 0 && r < Pow2(n)
    ensures r / 2 < Pow2(n - 1)
  {
  }

  lemma {:induction false} XorOfDisjointBits(r: nat, k: nat, n: nat)
    requires r < Pow2(n)
    ensures Xor(r, k * Pow2(n)) == r + k * Pow2(n)
    decreases n
  {
    TimesPow2(k, n);
    if n > 0 {
      hide Pow2, Xor;
      HalfBelow(r, n);
      XorOfDisjointBits(r / 2, k, n - 1);
      XorWithEven(r, k * Pow2(n - 1));
    }
  }

  // n clocks: n bits are used up, the rest only moves down.
  lemma SplitShifts(w: nat, low: nat, high: nat, n: nat)
    requires low < Pow2(n) && w == low + high * Pow2(n)
    ensures Shifts(w, n) == Xor(Shifts(low, n), high)
  {
    hide Pow2, Xor, Shifts;
    XorOfDisjointBits(low, high, n);
    ShiftsAreLinear(low, high * Pow2(n), n);
    ShiftsOfZeros(high, n);
  }

  // Look the low byte up, move the rest down.
  lemma EightShifts(w: nat, n: nat)
    requires Pow2(n) == 256
    ensures Shifts(w, n) == Xor(Shifts(w % 256, n), w / 256)
  {
    var low, high := w % 256, w / 256;
    assert high * Pow2(n) == high * 256;
    SplitShifts(w, low, high, n);
  }

  // Mixing a byte in leaves the higher bits alone.
  lemma HighBitsKept(c: nat, b: byte)
    ensures Xor(c, b) / 256 == c / 256
  {
    ByteBound();
    DropKeepsHighBits(c, b, 8);
    DropEight(Xor(c, b));
    DropEight(c);
  }

  // One turn of the checksum loop takes in one byte.
  lemma LookupStep(c: nat, b: byte, n: nat)
    requires n == 8
    ensures Xor(Shifts(Xor(c, b) % 256, n), c / 256) == Register(c, LowBits(b, n))
  {
    ByteBound();
    ByteAtOnce(c, b, n);
    EightShifts(Xor(c, b), n);
    HighBitsKept(c, b);
  }

  /******* The register stays 32 bits wide *******/

  lemma ShiftStaysWord(c: nat)
    requires c < WORD
    ensures Shift(c) < WORD
  {
    WordBound();
    XorBounded(POLYNOMIAL, c / 2, 32);
  }

  lemma {:induction false} ShiftsStayWords(c: nat, n: nat)
    requires c < WORD
    ensures Shifts(c, n) < WORD
    decreases n
  {
    if n > 0 {
      ShiftStaysWord(c);
      ShiftsStayWords(Shift(c), n - 1);
    }
  }

  lemma {:induction false} RegisterStaysWord(c: nat, bits: seq<bool>)
    requires c < WORD
    ensures Register(c, bits) < WORD
    decreases |bits|
  {
    if bits != [] {
      var bit := if bits[0] then 1 else 0;
      WordBound();
      XorBounded(c, bit, 32);
      ShiftStaysWord(Xor(c, bit));
      RegisterStaysWord(Shift(Xor(c, bit)), bits[1..]);
    }
  }

  /******* The program *******/

  // The inner loop of the table: eight clocks of one index.
  method TableWord(n: nat) returns (c: nat)
    requires n < 256
    ensures c == Shifts(n, 8) && c < WORD
  {
    c := n;
    var left := 8;
    while left > 0
      invariant c < WORD
      invariant Shifts(c, left) == Shifts(n, 8)
    {
      ShiftStaysWord(c);
      c := if c % 2 == 1 then Xor(POLYNOMIAL, c / 2) else c / 2;
      left := left - 1;
    }
  }

  method BuildTable() returns (t: array<nat>)
    ensures fresh(t) && t.Length == 256
    ensures forall n :: 0 <= n < 256 ==> t[n] == Shifts(n, 8) && t[n] < WORD
  {
    hide Shifts;
    t := new nat[256];
    var n := 0;
    while n < 256
      invariant 0 <= n <= 256
      invariant forall i :: 0 <= i < n ==> t[i] == Shifts(i, 8) && t[i] < WORD
    {
      var c := TableWord(n);
      t[n] := c;
      n := n + 1;
    }
  }

  // The table form computes the bit-at-a-time checksum of every byte string.
  method Checksum(t: array<nat>, data: seq<byte>) returns (crc: nat)
    requires t.Length == 256
    requires forall n :: 0 <= n < 256 ==> t[n] == Shifts(n, 8)
    ensures crc == Crc(data) && crc < WORD
  {
    var c: nat := ONES;
    var i := 0;
    while i < |data|
      invariant 0 <= i <= |data|
      invariant c == Register(ONES, Bits(data[..i])) && c < WORD
    {
      LookupStep(c, data[i], 8);
      RegisterStaysWord(c, LowBits(data[i], 8));
      RegisterTakesByte(ONES, data, i);
      c := Xor(t[Xor(c, data[i]) % 256], c / 256);
      i := i + 1;
    }
    assert data[..i] == data;
    WordBound();
    XorBounded(c, ONES, 32);
    crc := Xor(c, ONES);
  }

  lemma BitsOfByte(b: byte, n: nat)
    requires n == 8
    ensures Bits([b]) == LowBits(b, n)
  {
    assert Bits([b][1..]) == [];
    assert LowBits(b, n) + [] == LowBits(b, n);
  }

  lemma RegisterTakesByte(c: nat, data: seq<byte>, i: nat)
    requires i < |data|
    ensures Register(c, Bits(data[..i + 1])) == Register(Register(c, Bits(data[..i])), LowBits(data[i], 8))
  {
    assert data[..i + 1] == data[..i] + [data[i]];
    BitsConcat(data[..i], [data[i]]);
    BitsOfByte(data[i], 8);
    RegisterConcat(c, Bits(data[..i]), LowBits(data[i], 8));
  }

  lemma CrcIsWord(data: seq<byte>)
    ensures Crc(data) < WORD
  {
    RegisterStaysWord(ONES, Bits(data));
    WordBound();
    XorBounded(Register(ONES, Bits(data)), ONES, 32);
  }

  /******* What the checksum detects *******/

  // The top coefficient of the polynomial makes the clock reversible.
  lemma ShiftIsInjective(a: nat, b: nat)
    requires a < WORD && b < WORD && Shift(a) == Shift(b)
    ensures a == b
  {
    WordBound();
    TopBit(a);
    TopBit(b);
    XorInjective(POLYNOMIAL, a / 2, b / 2);
    SameBits(a, b);
  }

  lemma TopBit(c: nat)
    requires c < WORD
    ensures Drop(Shift(c), 31) == c % 2
  {
    WordBound();
    DropBelow(c / 2, 31);
    DropKeepsHighBits(POLYNOMIAL, c / 2, 31);
    DropTop(0x6DB8_8320, 31);
  }

  lemma {:induction false} DropOfMultiple(k: nat, n: nat)
    ensures Drop(k * Pow2(n), n) == k
    decreases n
  {
    hide Pow2;
    TimesPow2(k, n);
    if n > 0 { DropOfMultiple(k, n - 1); }
  }

  lemma DropTop(low: nat, n: nat)
    requires low < Pow2(n)
    ensures Drop(low + Pow2(n), n) == 1
  {
    XorOfDisjointBits(low, 1, n);
    XorCommutes(low, Pow2(n));
    DropKeepsHighBits(Pow2(n), low, n);
    DropOfMultiple(1, n);
  }

  lemma XorInjective(p: nat, a: nat, b: nat)
    ensures Xor(p, a) == Xor(p, b) <==> a == b
  {
    XorAssociates(p, p, a);
    XorAssociates(p, p, b);
    XorCancels(p);
  }

  lemma {:induction false} ShiftsAreInjective(a: nat, b: nat, n: nat)
    requires a < WORD && b < WORD && Shifts(a, n) == Shifts(b, n)
    ensures a == b
    decreases n
  {
    if n > 0 {
      ShiftStaysWord(a);
      ShiftStaysWord(b);
      ShiftsAreInjective(Shift(a), Shift(b), n - 1);
      ShiftIsInjective(a, b);
    }
  }

  lemma {:induction false} RegisterIsInjective(a: nat, b: nat, bits: seq<bool>)
    requires a < WORD && b < WORD && Register(a, bits) == Register(b, bits)
    ensures a == b
    decreases |bits|
  {
    if bits != [] {
      var bit := if bits[0] then 1 else 0;
      WordBound();
      XorBounded(a, bit, 32);
      XorBounded(b, bit, 32);
      ShiftStaysWord(Xor(a, bit));
      ShiftStaysWord(Xor(b, bit));
      RegisterIsInjective(Shift(Xor(a, bit)), Shift(Xor(b, bit)), bits[1..]);
      ShiftIsInjective(Xor(a, bit), Xor(b, bit));
      XorCommutes(a, bit);
      XorCommutes(b, bit);
      XorInjective(bit, a, b);
    }
  }

  // Two bit strings that differ only inside a window of at most 32 bits,
  // however placed, leave different registers: every such burst is caught.
  lemma BurstDetected(before: seq<bool>, x: nat, y: nat, n: nat, after: seq<bool>)
    requires n <= 32 && x < Pow2(n) && y < Pow2(n) && x != y
    ensures Register(ONES, before + LowBits(x, n) + after) != Register(ONES, before + LowBits(y, n) + after)
  {
    var c := Register(ONES, before);
    RegisterStaysWord(ONES, before);
    AfterWindow(before, x, n, after);
    AfterWindow(before, y, n, after);
    WordBound();
    Pow2Grows(n, 32);
    XorBounded(c, x, 32);
    XorBounded(c, y, 32);
    ShiftsStayWords(Xor(c, x), n);
    ShiftsStayWords(Xor(c, y), n);
    XorInjective(c, x, y);
    if Register(Shifts(Xor(c, x), n), after) == Register(Shifts(Xor(c, y), n), after) {
      RegisterIsInjective(Shifts(Xor(c, x), n), Shifts(Xor(c, y), n), after);
      ShiftsAreInjective(Xor(c, x), Xor(c, y), n);
      assert false;
    }
  }

  lemma AfterWindow(before: seq<bool>, x: nat, n: nat, after: seq<bool>)
    requires x < Pow2(n)
    ensures Register(ONES, before + LowBits(x, n) + after) == Register(Shifts(Xor(Register(ONES, before), x), n), after)
  {
    RegisterConcat(ONES, before + LowBits(x, n), after);
    RegisterConcat(ONES, before, LowBits(x, n));
    BitsAtOnce(Register(ONES, before), x, n);
    DropBelow(x, n);
  }

  /******* The standard's constants *******/

  lemma Doubled(n: nat, p: nat)
    requires Pow2(n) == p
    ensures Pow2(n + 1) == 2 * p
  {
  }

  lemma ByteAbove(n: nat, p: nat)
    requires Pow2(n) == p
    ensures Pow2(n + 8) == 256 * p
  {
    ByteBound();
    Pow2Adds(8, n);
  }

  lemma LowPowers()
    ensures Pow2(5) == 32 && Pow2(8) == 256 && Pow2(9) == 512
  {
  }

  lemma HighPowers()
    ensures Pow2(15) == 0x8000 && Pow2(19) == 0x8_0000 && Pow2(20) == 0x10_0000 && Pow2(21) == 0x20_0000
    ensures Pow2(23) == 0x80_0000 && Pow2(24) == 0x100_0000 && Pow2(26) == 0x400_0000 && Pow2(27) == 0x800_0000
    ensures Pow2(29) == 0x2000_0000 && Pow2(30) == 0x4000_0000 && Pow2(31) == 0x8000_0000
  {
    hide Pow2;
    assert Pow2(3) == 8 && Pow2(4) == 16 && Pow2(5) == 32 && Pow2(7) == 128 && Pow2(8) == 256 by { SmallPowers(); }
    ByteAbove(7, 128);
    ByteAbove(8, 256);
    ByteAbove(3, 8);
    ByteAbove(4, 16);
    ByteAbove(5, 32);
    ByteAbove(11, 0x800);
    ByteAbove(12, 0x1000);
    ByteAbove(13, 0x2000);
    ByteAbove(15, 0x8000);
    ByteAbove(16, 0x1_0000);
    ByteAbove(19, 0x8_0000);
    ByteAbove(21, 0x20_0000);
    ByteAbove(23, 0x80_0000);
    Doubled(24, 0x100_0000);
    Doubled(25, 0x200_0000);
    Doubled(29, 0x2000_0000);
  }

  lemma SmallPowers()
    ensures Pow2(3) == 8 && Pow2(4) == 16 && Pow2(5) == 32 && Pow2(7) == 128 && Pow2(8) == 256
  {
  }

  // The polynomial of section 8 of RFC 1952, lowest exponent in the highest
  // bit: x^32 + x^26 + x^23 + x^22 + x^16 + x^12 + x^11 + x^10 + x^8 + x^7 +
  // x^5 + x^4 + x^2 + x + 1; and 32 ones.
  lemma StandardConstants()
    ensures POLYNOMIAL == Pow2(31 - 26) + Pow2(31 - 23) + Pow2(31 - 22) + Pow2(31 - 16) + Pow2(31 - 12) + Pow2(31 - 11)
                        + Pow2(31 - 10) + Pow2(31 - 8) + Pow2(31 - 7) + Pow2(31 - 5) + Pow2(31 - 4) + Pow2(31 - 2)
                        + Pow2(31 - 1) + Pow2(31 - 0)
    ensures ONES + 1 == Pow2(32)
  {
    WordBound();
    LowPowers();
    HighPowers();
    hide Pow2;
  }

  // Feeding ones to a register of ones empties it bit by bit.
  lemma {:induction false} OnesRunOut(c: nat, m: nat, n: nat)
    requires m == Pow2(n) - 1
    ensures Register((c + 1) * Pow2(n) - 1, LowBits(m, n)) == c
    decreases n
  {
    hide Xor, Shift;
    if n > 0 {
      hide Register, LowBits;
      assert m / 2 == Pow2(n - 1) - 1 && m % 2 == 1;
      hide Pow2;
      var half := (c + 1) * Pow2(n - 1) - 1;
      TimesPow2(c + 1, n);
      OneOut(half);
      FeedOne(2 * half + 1, m, n);
      OnesRunOut(c, m / 2, n - 1);
    }
  }

  lemma OneOut(half: nat)
    ensures Shift(Xor(2 * half + 1, 1)) == half
  {
    XorBits(2 * half + 1, 1);
    assert Xor(half, 0) == half;
    assert Xor(2 * half + 1, 1) == 2 * half;
  }

  // Two values the standard's algorithm gives, without a table.
  lemma KnownValues()
    ensures Crc([]) == 0
    ensures Crc([0xFF]) == 0xFF00_0000
  {
    hide Register, Xor, LowBits;
    assert Crc([]) == 0 by { RegisterOfNothing(); XorCancels(ONES); }
    BitsOfByte(0xFF, 8);
    ByteBound();
    OnesRunOut(0xFF_FFFF, 0xFF, 8);
    assert Register(ONES, Bits([0xFF])) == 0xFF_FFFF;
    HighOnes(24, 8);
  }

  lemma RegisterOfNothing()
    ensures Register(ONES, Bits([])) == ONES
  {
  }

  // Ones below, taken off ones all over, leave the ones above.
  lemma HighOnes(n: nat, k: nat)
    requires n == 24 && k == 8
    ensures Xor(0xFF_FFFF, ONES) == 0xFF00_0000
  {
    hide Xor;
    Pow2Adds(8, 8);
    Pow2Adds(8, 16);
    ByteBound();
    XorOfDisjointBits(0xFF_FFFF, 0xFF, n);
    XorAssociates(0xFF_FFFF, 0xFF_FFFF, 0xFF00_0000);
    XorCancels(0xFF_FFFF);
    ZeroMixedIn(0xFF00_0000);
  }

  lemma ZeroMixedIn(a: nat)
    ensures Xor(0, a) == a
  {
  }
}
