/** The stable notification id: FNV-1a over the bytes of a string, in 32-bit words. */
module NotificationId {

  type Byte = n: int | 0 <= n < 256
  type Word = n: int | 0 <= n < 0x1_0000_0000

  const OFFSET_BASIS: Word := 0x811C_9DC5
  const PRIME := 0x0100_0193
  /** The inverse of the prime modulo 2^32. */
  const PRIME_INVERSE := 0x359C_449B
  const WORDS := 0x1_0000_0000

  // ----- exclusive or, bit by bit -----

  function Xor(a: nat, b: nat): nat {
    if a == 0 && b == 0 then 0 else (if a % 2 == b % 2 then 0 else 1) + 2 * Xor(a / 2, b / 2)
  }

  function Pow2(n: nat): (p: nat)
    ensures p >= 1
  {
    if n == 0 then 1 else 2 * Pow2(n - 1)
  }

  lemma XorParts(a: nat, b: nat)
    ensures Xor(a, b) % 2 == if a % 2 == b % 2 then 0 else 1
    ensures Xor(a, b) / 2 == Xor(a / 2, b / 2)
  {
  }

  lemma {:induction false} XorUndoes(a: nat, b: nat)
    ensures Xor(Xor(a, b), b) == a
    decreases a + b
  {
    if a != 0 || b != 0 {
      XorUndoes(a / 2, b / 2);
      XorParts(a, b);
      XorParts(Xor(a, b), b);
      HalvesDetermine(Xor(Xor(a, b), b), a);
    }
  }

  lemma HalvesDetermine(x: nat, y: nat)
    requires x % 2 == y % 2 && x / 2 == y / 2
    ensures x == y
  {
  }

  lemma {:induction false} XorBound(a: nat, b: nat, n: nat)
    requires a < Pow2(n) && b < Pow2(n)
    ensures Xor(a, b) < Pow2(n)
  {
    if n != 0 {
      XorBound(a / 2, b / 2, n - 1);
    }
  }

  lemma WordBound()
    ensures Pow2(32) == WORDS
  {
    assert Pow2(8) == 256;
    assert Pow2(16) == 65536;
    assert Pow2(24) == 16777216;
  }

  // ----- the hash -----

  function XorByte(h: Word, b: Byte): Word {
    WordBound();
    XorBound(h, b, 32);
    Xor(h, b)
  }

  /** Wrapping multiplication by the prime. */
  function Multiply(h: Word): Word {
    h * PRIME % WORDS
  }

  function Absorb(h: Word, b: Byte): Word {
    Multiply(XorByte(h, b))
  }

  /** The mathematical fold: each octet in turn, exclusive or and then multiply modulo 2^32. */
  function Fnv1a(bytes: seq<Byte>): Word {
    if bytes == [] then OFFSET_BASIS else Absorb(Fnv1a(bytes[..|bytes| - 1]), bytes[|bytes| - 1])
  }

  /** Keeps the low 31 bits and sets the lowest, so that the id is positive. */
  function IdOf(h: Word): int {
    var low := h % 0x8000_0000;
    if low % 2 == 0 then low + 1 else low
  }

  lemma IdIsPositiveOdd(h: Word)
    ensures 1 <= IdOf(h) <= 0x7FFF_FFFF && IdOf(h) % 2 == 1
  {
  }

  method StableNotificationId(bytes: seq<Byte>) returns (id: int)
    ensures id == IdOf(Fnv1a(bytes))
    ensures 1 <= id <= 0x7FFF_FFFF && id % 2 == 1
  {
    var hash: Word := OFFSET_BASIS;
    for i := 0 to |bytes|
      invariant hash == Fnv1a(bytes[..i])
    {
      assert bytes[..i + 1][..i] == bytes[..i];
      hash := XorByte(hash, bytes[i]);
      hash := Multiply(hash);
    }
    assert bytes[..|bytes|] == bytes;
    IdIsPositiveOdd(hash);
    id := hash % 0x8000_0000;
    if id % 2 == 0 {
      id := id + 1;
    }
  }

  // ----- known values -----

  /** Exclusive or with a small number only changes the low bits. */
  lemma {:induction false} XorLow(a: nat, b: nat, n: nat)
    requires b < Pow2(n)
    ensures Xor(a, b) == Pow2(n) * (a / Pow2(n)) + Xor(a % Pow2(n), b)
  {
    if n == 0 {
      XorZero(a);
    } else {
      var p := Pow2(n - 1);
      var q, r := a / 2 / p, a / 2 % p;
      XorLow(a / 2, b / 2, n - 1);
      SplitLowBit(a, n);
      HalfQuotient(a, p);
      XorParts(a, b);
      XorParts(a % 2 + 2 * r, b);
      Regrouped(p, q, Xor(r, b / 2), Xor(a, b) % 2);
    }
  }

  lemma Regrouped(p: int, q: int, z: int, bit: int)
    ensures bit + 2 * (p * q + z) == 2 * p * q + (bit + 2 * z)
  {
  }

  lemma HalfQuotient(a: nat, p: nat)
    requires p >= 1
    ensures a / (2 * p) == a / 2 / p
  {
    var q, r := a / 2 / p, a / 2 % p;
    assert a == 2 * (p * q + r) + a % 2;
    RemainderUnique(a, 2 * p, q, 2 * r + a % 2);
    QuotientUnique(a, 2 * p, q, 2 * r + a % 2);
  }

  lemma QuotientUnique(a: nat, m: nat, q: nat, r: nat)
    requires m > 0 && a == m * q + r && r < m
    ensures a / m == q
  {
    if a / m < q {
      TimesMonotonic(m, a / m + 1, q);
    } else if a / m > q {
      TimesMonotonic(m, q + 1, a / m);
    }
  }

  lemma {:induction false} XorZero(a: nat)
    ensures Xor(a, 0) == a
  {
    if a != 0 {
      XorZero(a / 2);
    }
  }

  /** One more low bit on either side. */
  lemma XorPush(a: nat, b: nat, x: nat, p: nat, q: nat)
    requires Xor(a, b) == x && p < 2 && q < 2
    ensures Xor(2 * a + p, 2 * b + q) == 2 * x + (p + q) % 2
  {
    XorParts(2 * a + p, 2 * b + q);
    HalvesDetermine(Xor(2 * a + p, 2 * b + q), 2 * x + (p + q) % 2);
  }

  lemma HashOfOne(s: seq<Byte>, h: Word, low: nat, mixed: nat)
    requires |s| == 1 && h == OFFSET_BASIS && h % 256 == low && Xor(low, s[0]) == mixed < 256
    ensures Fnv1a(s) == (h - low + mixed) * PRIME % WORDS
  {
    assert Pow2(8) == 256;
    XorLow(h, s[0], 8);
    assert s[..0] == [];
  }

  /** The hash of "a", as every implementation of the algorithm has it: it fixes the offset basis, the
      prime, and that the exclusive or comes first. */
  lemma KnownHash(s: seq<Byte>)
    requires |s| == 1 && s[0] == 'a' as int
    ensures Fnv1a(s) == 0xE40C292C
  {
    var h: Word := OFFSET_BASIS;
    LowByteOfA(h % 256, s[0]);
    HashOfOne(s, h, h % 256, 0xA4);
  }

  lemma LowByteOfA(low: nat, b: nat)
    requires low == 0xC5 && b == 'a' as int
    ensures Xor(low, b) == 0xA4
  {
    XorPush(0, 0, 0, 1, 0);
    XorPush(1, 0, 1, 1, 1);
    XorPush(3, 1, 2, 0, 1);
    XorPush(6, 3, 5, 0, 0);
    XorPush(12, 6, 10, 0, 0);
    XorPush(24, 12, 20, 1, 0);
    XorPush(49, 24, 41, 0, 0);
    XorPush(98, 48, 82, 1, 1);
  }

  // ----- each step is a bijection -----

  function Unmultiply(h: Word): Word {
    h * PRIME_INVERSE % WORDS
  }

  lemma Remainder(x: int, q: int, r: int)
    requires x == q * WORDS + r && 0 <= r < WORDS
    ensures x % WORDS == r
  {
  }

  /** The prime is odd, so multiplying by it modulo 2^32 can be undone on either side. */
  lemma {:induction false} MultiplyInverts(h: Word)
    ensures Unmultiply(Multiply(h)) == h
    ensures Multiply(Unmultiply(h)) == h
  {
    var c := PRIME * PRIME_INVERSE / WORDS;
    assert PRIME * PRIME_INVERSE == c * WORDS + 1;
    var k := h * PRIME / WORDS;
    assert Multiply(h) == h * PRIME - k * WORDS;
    assert Multiply(h) * PRIME_INVERSE == (h * c - k * PRIME_INVERSE) * WORDS + h;
    Remainder(Multiply(h) * PRIME_INVERSE, h * c - k * PRIME_INVERSE, h);
    var j := h * PRIME_INVERSE / WORDS;
    assert Unmultiply(h) == h * PRIME_INVERSE - j * WORDS;
    assert Unmultiply(h) * PRIME == (h * c - j * PRIME) * WORDS + h;
    Remainder(Unmultiply(h) * PRIME, h * c - j * PRIME, h);
  }

  function Unabsorb(h: Word, b: Byte): Word {
    XorByte(Unmultiply(h), b)
  }

  /** For every byte, absorbing it is a bijection on words. */
  lemma {:induction false} AbsorbIsBijection(h: Word, b: Byte)
    ensures Unabsorb(Absorb(h, b), b) == h
    ensures Absorb(Unabsorb(h, b), b) == h
  {
    MultiplyInverts(XorByte(h, b));
    MultiplyInverts(h);
    XorUndoes(h, b);
    XorUndoes(Unmultiply(h), b);
  }

  lemma {:induction false} XorCommutes(a: nat, b: nat)
    ensures Xor(a, b) == Xor(b, a)
    decreases a + b
  {
    if a != 0 || b != 0 {
      XorCommutes(a / 2, b / 2);
    }
  }

  /** From one word, different bytes lead to different words. */
  lemma AbsorbSeparatesBytes(h: Word, a: Byte, b: Byte)
    requires a != b
    ensures Absorb(h, a) != Absorb(h, b)
  {
    MultiplyInverts(XorByte(h, a));
    MultiplyInverts(XorByte(h, b));
    XorCommutes(h, a);
    XorCommutes(h, b);
    XorUndoes(a, h);
    XorUndoes(b, h);
  }

  /** Equal-length strings that differ in exactly one byte have different hashes. */
  lemma {:induction false} OneByteChangesHash(x: seq<Byte>, y: seq<Byte>, i: nat)
    requires |x| == |y| && i < |x| && x[i] != y[i]
    requires forall k | 0 <= k < |x| && k != i :: x[k] == y[k]
    ensures Fnv1a(x) != Fnv1a(y)
  {
    var n := |x| - 1;
    if i == n {
      assert x[..n] == y[..n];
      AbsorbSeparatesBytes(Fnv1a(x[..n]), x[n], y[n]);
    } else {
      OneByteChangesHash(x[..n], y[..n], i);
      AbsorbIsBijection(Fnv1a(x[..n]), x[n]);
      AbsorbIsBijection(Fnv1a(y[..n]), y[n]);
    }
  }

  // ----- when two ids collide -----

  function Bit(h: nat, i: nat): nat {
    if i == 0 then h % 2 else Bit(h / 2, i - 1)
  }

  predicate LowBitsAgree(a: nat, b: nat, n: nat) {
    n == 0 || (a % 2 == b % 2 && LowBitsAgree(a / 2, b / 2, n - 1))
  }

  predicate SameBit(a: nat, b: nat, i: nat) {
    Bit(a, i) == Bit(b, i)
  }

  lemma SameBitShifts(a: nat, b: nat, i: nat)
    ensures SameBit(a, b, i + 1) <==> SameBit(a / 2, b / 2, i)
  {
  }

  /** All of `lo` to `hi` bits, shifted down by one. */
  lemma SameBitsShift(a: nat, b: nat, lo: nat, hi: nat)
    ensures (forall i | lo + 1 <= i < hi + 1 :: SameBit(a, b, i)) <==> (forall i | lo <= i < hi :: SameBit(a / 2, b / 2, i))
  {
    if forall i | lo + 1 <= i < hi + 1 :: SameBit(a, b, i) {
      forall i | lo <= i < hi ensures SameBit(a / 2, b / 2, i) {
        SameBitShifts(a, b, i);
      }
    }
    if forall i | lo <= i < hi :: SameBit(a / 2, b / 2, i) {
      forall i | lo + 1 <= i < hi + 1 ensures SameBit(a, b, i) {
        SameBitShifts(a, b, i - 1);
      }
    }
  }

  lemma {:induction false} LowBitsAreBits(a: nat, b: nat, n: nat)
    ensures LowBitsAgree(a, b, n) <==> forall i | 0 <= i < n :: SameBit(a, b, i)
  {
    if n != 0 {
      LowBitsAreBits(a / 2, b / 2, n - 1);
      SameBitsShift(a, b, 0, n - 1);
      assert SameBit(a, b, 0) <==> a % 2 == b % 2;
    }
  }

  /** Remainders modulo 2^n are equal exactly when the n low bits agree. */
  lemma {:induction false} LowBitsAreRemainder(a: nat, b: nat, n: nat)
    ensures a % Pow2(n) == b % Pow2(n) <==> LowBitsAgree(a, b, n)
  {
    if n != 0 {
      LowBitsAreRemainder(a / 2, b / 2, n - 1);
      SplitLowBit(a, n);
      SplitLowBit(b, n);
    }
  }

  lemma SplitLowBit(a: nat, n: nat)
    requires n >= 1
    ensures a % Pow2(n) == a % 2 + 2 * ((a / 2) % Pow2(n - 1))
  {
    var p := Pow2(n - 1);
    var q, r := (a / 2) / p, (a / 2) % p;
    assert a / 2 == p * q + r;
    assert a == (2 * p) * q + (a % 2 + 2 * r);
    RemainderUnique(a, 2 * p, q, a % 2 + 2 * r);
  }

  lemma TimesMonotonic(m: nat, x: int, y: int)
    requires x <= y
    ensures m * x <= m * y
  {
  }

  lemma RemainderUnique(a: nat, m: nat, q: nat, r: nat)
    requires m > 0 && a == m * q + r && r < m
    ensures a % m == r
  {
    if a / m < q {
      TimesMonotonic(m, a / m + 1, q);
    } else if a / m > q {
      TimesMonotonic(m, q + 1, a / m);
    }
  }

  lemma IdDropsTwoBits(h: Word)
    ensures IdOf(h) == 2 * ((h / 2) % 0x4000_0000) + 1
  {
    var low := h % 0x8000_0000;
    assert IdOf(h) == 2 * (low / 2) + 1;
  }

  /** Two ids are equal exactly when the hashes agree on bits 1 to 30: bit 0 is forced and the sign
      bit dropped. */
  lemma IdsCollideIff(g: Word, h: Word)
    ensures IdOf(g) == IdOf(h) <==> forall i | 1 <= i < 31 :: SameBit(g, h, i)
  {
    IdDropsTwoBits(g);
    IdDropsTwoBits(h);
    assert Pow2(32) == 4 * Pow2(30);
    WordBound();
    LowBitsAreRemainder(g / 2, h / 2, 30);
    LowBitsAreBits(g / 2, h / 2, 30);
    SameBitsShift(g, h, 0, 30);
  }
}
