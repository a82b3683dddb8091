/** The 32-bit FNV-1a hash behind bounded names: `fnv32` from
    internal/syncplan/plan.go. A hash state is a number below 2^32, so the
    wrap-around of uint32 is written out. */
module Fnv {
  const MODULUS: int := 0x1_0000_0000
  const OFFSET: Word := 2166136261
  const PRIME: int := 16777619
  const PRIME_INVERSE: int := 899433627

  type Word = w: int | 0 <= w < MODULUS

  function Pow2(n: nat): nat {
    if n == 0 then 1 else 2 * Pow2(n - 1)
  }

  /** Exclusive or, bit by bit. */
  function Xor(bits: nat, a: nat, b: nat): nat {
    if bits == 0 then 0 else 2 * Xor(bits - 1, a / 2, b / 2) + (a + b) % 2
  }

  lemma {:induction false} XorBound(bits: nat, a: nat, b: nat)
    ensures Xor(bits, a, b) < Pow2(bits)
  {
    if bits != 0 {
      XorBound(bits - 1, a / 2, b / 2);
    }
  }

  lemma DoubledDigits(h: nat, d: nat)
    requires d < 2
    ensures (2 * h + d) / 2 == h && (2 * h + d) % 2 == d
  {
  }

  lemma XorOfDoubled(bits: nat, h: nat, d: nat, b: nat)
    requires bits > 0 && d < 2
    ensures Xor(bits, 2 * h + d, b) == 2 * Xor(bits - 1, h, b / 2) + (d + b) % 2
  {
    DoubledDigits(h, d);
    SameParity(h, d + b);
    assert 2 * h + d + b == 2 * h + (d + b);
  }

  lemma SameParity(h: nat, n: nat)
    ensures (2 * h + n) % 2 == n % 2
  {
  }

  lemma ParityTwice(a: nat, b: nat)
    ensures ((a + b) % 2 + b) % 2 == a % 2
  {
  }

  lemma {:induction false} XorInvolution(bits: nat, a: nat, b: nat)
    requires a < Pow2(bits)
    ensures Xor(bits, Xor(bits, a, b), b) == a
  {
    if bits != 0 {
      XorInvolution(bits - 1, a / 2, b / 2);
      XorOfDoubled(bits, Xor(bits - 1, a / 2, b / 2), (a + b) % 2, b);
      ParityTwice(a, b);
    }
  }

  lemma DigitsDetermine(h: nat, d: nat, h': nat, d': nat)
    requires d < 2 && d' < 2 && 2 * h + d == 2 * h' + d'
    ensures h == h' && d == d'
  {
  }

  lemma ParityCancels(h: nat, a: nat, b: nat)
    requires (h + a) % 2 == (h + b) % 2
    ensures a % 2 == b % 2
  {
  }

  lemma {:induction false} XorSeparates(bits: nat, h: nat, a: nat, b: nat)
    requires a < Pow2(bits) && b < Pow2(bits) && Xor(bits, h, a) == Xor(bits, h, b)
    ensures a == b
  {
    if bits != 0 {
      DigitsDetermine(Xor(bits - 1, h / 2, a / 2), (h + a) % 2, Xor(bits - 1, h / 2, b / 2), (h + b) % 2);
      ParityCancels(h, a, b);
      XorSeparates(bits - 1, h / 2, a / 2, b / 2);
    }
  }

  lemma WordSize()
    ensures Pow2(32) == MODULUS
  {
    assert Pow2(8) == 256;
    assert Pow2(16) == 65536;
    assert Pow2(24) == 16777216;
  }

  function XorWord(h: Word, b: nat): Word {
    WordSize();
    XorBound(32, h, b);
    Xor(32, h, b)
  }

  function Byte(c: char): nat {
    c as int % 256
  }

  function Step(hash: Word, byte: nat): Word {
    XorWord(hash, byte) * PRIME % MODULUS
  }

  function Fold(hash: Word, value: string): Word
    decreases |value|
  {
    if value == "" then hash else Fold(Step(hash, Byte(value[0])), value[1..])
  }

  function HexDigit(n: nat): char {
    if n < 10 then (n + '0' as int) as char else if n < 16 then (n - 10 + 'a' as int) as char else '?'
  }

  function Hex(h: nat, digits: nat): (r: string)
    ensures |r| == digits
  {
    if digits == 0 then "" else Hex(h / 16, digits - 1) + [HexDigit(h % 16)]
  }

  /** The verb %08x renders the hash. */
  function Fnv32(value: string): (r: string)
    ensures |r| == 8
  {
    Hex(Fold(OFFSET, value), 8)
  }

  /** internal/syncplan/plan.go:113-122. */
  method ComputeFnv32(value: string) returns (r: string)
    ensures r == Fnv32(value)
  {
    var hash: Word := OFFSET;
    for i := 0 to |value|
      invariant Fold(hash, value[i..]) == Fold(OFFSET, value)
    {
      assert value[i..][1..] == value[i + 1..];
      hash := XorWord(hash, Byte(value[i]));
      hash := hash * PRIME % MODULUS;
    }
    assert value[|value|..] == "";
    r := Hex(hash, 8);
  }

  lemma ModuloUnique(x: Word, t: int)
    ensures (x + t * MODULUS) % MODULUS == x
  {
  }

  /** 16777619 is odd: multiplying by it can be undone modulo 2^32. */
  lemma PrimeIsInvertible(h: Word)
    ensures (h * PRIME % MODULUS) * PRIME_INVERSE % MODULUS == h
    ensures (h * PRIME_INVERSE % MODULUS) * PRIME % MODULUS == h
  {
    var k := PRIME * PRIME_INVERSE / MODULUS;
    assert PRIME * PRIME_INVERSE == k * MODULUS + 1;
    ModuloUnique(h, h * k - h * PRIME / MODULUS * PRIME_INVERSE);
    ModuloUnique(h, h * k - h * PRIME_INVERSE / MODULUS * PRIME);
  }

  function Unstep(hash: Word, byte: nat): Word {
    XorWord(hash * PRIME_INVERSE % MODULUS, byte)
  }

  lemma StepIsBijective(hash: Word, byte: nat)
    ensures Unstep(Step(hash, byte), byte) == hash
    ensures Step(Unstep(hash, byte), byte) == hash
  {
    WordSize();
    var mixed := XorWord(hash, byte);
    PrimeIsInvertible(mixed);
    XorInvolution(32, hash, byte);
    var back := hash * PRIME_INVERSE % MODULUS;
    XorInvolution(32, back, byte);
    PrimeIsInvertible(hash);
  }

  function Unfold(hash: Word, suffix: string): Word {
    if suffix == "" then hash else Unstep(Unfold(hash, suffix[1..]), Byte(suffix[0]))
  }

  /** For every suffix, folding it is a bijection on hash states. */
  lemma {:induction false} FoldIsBijective(hash: Word, suffix: string)
    ensures Unfold(Fold(hash, suffix), suffix) == hash
    ensures Fold(Unfold(hash, suffix), suffix) == hash
    decreases |suffix|
  {
    if suffix != "" {
      var b := Byte(suffix[0]);
      StepIsBijective(hash, b);
      StepIsBijective(Unfold(hash, suffix[1..]), b);
      FoldIsBijective(Step(hash, b), suffix[1..]);
      FoldIsBijective(hash, suffix[1..]);
    }
  }

  lemma {:induction false} FoldConcat(hash: Word, a: string, b: string)
    ensures Fold(hash, a + b) == Fold(Fold(hash, a), b)
    decreases |a|
  {
    if a == "" {
      assert a + b == b;
    } else {
      assert (a + b)[1..] == a[1..] + b;
      FoldConcat(Step(hash, Byte(a[0])), a[1..], b);
    }
  }

  lemma StepSeparatesBytes(hash: Word, a: nat, b: nat)
    requires a < 256 && b < 256 && Step(hash, a) == Step(hash, b)
    ensures a == b
  {
    PrimeIsInvertible(XorWord(hash, a));
    PrimeIsInvertible(XorWord(hash, b));
    WordSize();
    XorSeparates(32, hash, a, b);
  }

  function Pow16(n: nat): nat {
    if n == 0 then 1 else 16 * Pow16(n - 1)
  }

  lemma {:induction false} HexInjective(a: nat, b: nat, digits: nat)
    requires a < Pow16(digits) && b < Pow16(digits) && Hex(a, digits) == Hex(b, digits)
    ensures a == b
  {
    if digits != 0 {
      var x, y := Hex(a, digits), Hex(b, digits);
      assert x[..digits - 1] == Hex(a / 16, digits - 1) && y[..digits - 1] == Hex(b / 16, digits - 1);
      assert x[digits - 1] == HexDigit(a % 16) && y[digits - 1] == HexDigit(b % 16);
      HexInjective(a / 16, b / 16, digits - 1);
    }
  }

  lemma FoldThrough(prefix: string, c: char, suffix: string)
    ensures Fold(OFFSET, prefix + [c] + suffix) == Fold(Step(Fold(OFFSET, prefix), Byte(c)), suffix)
  {
    FoldConcat(OFFSET, prefix + [c], suffix);
    FoldConcat(OFFSET, prefix, [c]);
    assert [c][1..] == "";
  }

  lemma WordHasEightDigits()
    ensures Pow16(8) == MODULUS
  {
    assert Pow16(4) == 65536;
  }

  lemma Fnv32RendersTheState(x: string, y: string)
    requires Fnv32(x) == Fnv32(y)
    ensures Fold(OFFSET, x) == Fold(OFFSET, y)
  {
    WordHasEightDigits();
    HexInjective(Fold(OFFSET, x), Fold(OFFSET, y), 8);
  }

  lemma FoldSeparates(a: Word, b: Word, suffix: string)
    requires Fold(a, suffix) == Fold(b, suffix)
    ensures a == b
  {
    FoldIsBijective(a, suffix);
    FoldIsBijective(b, suffix);
  }

  lemma BytesFoldApart(hash: Word, a: char, b: char, suffix: string)
    requires a as int < 256 && b as int < 256
    requires Fold(Step(hash, Byte(a)), suffix) == Fold(Step(hash, Byte(b)), suffix)
    ensures a == b
  {
    FoldSeparates(Step(hash, Byte(a)), Step(hash, Byte(b)), suffix);
    StepSeparatesBytes(hash, Byte(a), Byte(b));
  }

  /** Two texts of one length that differ in exactly one byte never hash alike. */
  lemma OneByteSeparates(prefix: string, a: char, b: char, suffix: string)
    requires a != b && a as int < 256 && b as int < 256
    ensures Fnv32(prefix + [a] + suffix) != Fnv32(prefix + [b] + suffix)
  {
    if Fnv32(prefix + [a] + suffix) == Fnv32(prefix + [b] + suffix) {
      Fnv32RendersTheState(prefix + [a] + suffix, prefix + [b] + suffix);
      FoldThrough(prefix, a, suffix);
      FoldThrough(prefix, b, suffix);
      BytesFoldApart(Fold(OFFSET, prefix), a, b, suffix);
    }
  }

  // ---- against the published definition ----

  /** The i-th binary digit. */
  function Bit(n: nat, i: nat): nat {
    if i == 0 then n % 2 else Bit(n / 2, i - 1)
  }

  /** Xor adds digit by digit, without carry. */
  lemma {:induction false} XorBits(bits: nat, a: nat, b: nat, i: nat)
    requires i < bits
    ensures Bit(Xor(bits, a, b), i) == (if Bit(a, i) == Bit(b, i) then 0 else 1)
  {
    DoubledDigits(Xor(bits - 1, a / 2, b / 2), (a + b) % 2);
    if i != 0 {
      XorBits(bits - 1, a / 2, b / 2, i - 1);
    }
  }

  /** One byte is mixed in before the multiplication; then comes the rest. */
  lemma FoldOne(hash: Word, c: char, rest: string)
    ensures Fold(hash, [c] + rest) == Fold(Xor(32, hash, c as int % 256) * 16777619 % 0x1_0000_0000, rest)
  {
    assert ([c] + rest)[1..] == rest;
  }

  lemma {:induction false} XorZero(bits: nat, a: nat)
    requires a < Pow2(bits)
    ensures Xor(bits, a, 0) == a
  {
    if bits != 0 {
      XorZero(bits - 1, a / 2);
    }
  }

  lemma XorUp(bits: nat, a: nat, b: nat)
    requires bits > 0
    ensures Xor(bits, a, b) == 2 * Xor(bits - 1, a / 2, b / 2) + (a + b) % 2
  {
  }

  lemma ThreeBytes()
    ensures Pow2(24) == 16777216
  {
    assert Pow2(8) == 256;
    assert Pow2(16) == 65536;
  }

  lemma FirstMix()
    ensures Xor(32, 2166136261, 97) == 2166136228
  {
    hide Xor, Pow2;
    ThreeBytes();
    XorZero(24, 8461469);
    XorUp(25, 16922939, 0);
    XorUp(26, 33845879, 1);
    XorUp(27, 67691758, 3);
    XorUp(28, 135383516, 6);
    XorUp(29, 270767032, 12);
    XorUp(30, 541534065, 24);
    XorUp(31, 1083068130, 48);
    XorUp(32, 2166136261, 97);
  }

  function DigitValue(c: char): nat {
    if '0' <= c <= '9' then c as int - '0' as int else if 'a' <= c <= 'f' then 10 + c as int - 'a' as int else 16
  }

  /** The number that a text of hex digits stands for. */
  function ReadHex(s: string): nat {
    if s == "" then 0 else 16 * ReadHex(s[..|s| - 1]) + DigitValue(s[|s| - 1])
  }

  lemma {:induction false} HexReads(h: nat, digits: nat)
    requires h < Pow16(digits)
    ensures ReadHex(Hex(h, digits)) == h
  {
    if digits != 0 {
      HexReads(h / 16, digits - 1);
      assert Hex(h, digits)[..digits - 1] == Hex(h / 16, digits - 1);
    }
  }

  lemma FoldNothing(hash: Word)
    ensures Fold(hash, "") == hash
  {
  }

  /** The eight digits stand for the hash, which is the published one for the empty
      text and for "a". */
  lemma PublishedValues(value: string)
    ensures ReadHex(Fnv32(value)) == Fold(2166136261, value)
    ensures ReadHex(Fnv32("")) == 0x811c9dc5
    ensures ReadHex(Fnv32("a")) == 0xe40c292c
  {
    hide Hex, Xor, Fold, ReadHex;
    WordHasEightDigits();
    HexReads(Fold(OFFSET, value), 8);
    HexReads(Fold(OFFSET, ""), 8);
    HexReads(Fold(OFFSET, "a"), 8);
    FoldNothing(2166136261);
    FoldNothing(3826002220);
    assert "a" == ['a'] + "";
    FoldOne(2166136261, 'a', "");
    FirstMix();
  }
}
