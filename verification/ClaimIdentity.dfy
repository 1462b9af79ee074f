/**
 Which claims share a tag value: the bounded value of NormalizeNodeClaimTagValue tells short names apart, and long
 names apart unless both their kept prefix and their 32-bit FNV-1a hash are equal.
 */
module ClaimIdentity {
  import opened ClaimMarks
  import opened Tags
  import opened TagText

  // ---------------------------------------------------------------- hexadecimal digits read back

  function HexValue(c: char): int {
    if '0' <= c <= '9' then c as int - '0' as int else c as int - 'a' as int + 10
  }

  /** The number that hexadecimal digits denote. */
  function Unhex(s: string): int {
    if s == [] then 0 else 16 * Unhex(s[..|s| - 1]) + HexValue(s[|s| - 1])
  }

  function Pow16(width: nat): (p: nat)
    ensures p > 0
  {
    if width == 0 then 1 else 16 * Pow16(width - 1)
  }

  lemma DigitReadsBack(d: nat)
    requires d < 16
    ensures HexValue(HexDigit(d)) == d && (HexDigit(d) in "0123456789abcdef")
  {
    assert d == 0 || d == 1 || d == 2 || d == 3 || d == 4 || d == 5 || d == 6 || d == 7
        || d == 8 || d == 9 || d == 10 || d == 11 || d == 12 || d == 13 || d == 14 || d == 15;
  }

  /** Printing a number with enough digits loses nothing, and uses lower-case digits only. */
  lemma {:induction false} HexReadsBack(n: nat, width: nat)
    requires n < Pow16(width)
    ensures |Hex(n, width)| == width && Unhex(Hex(n, width)) == n
    ensures forall c :: c in Hex(n, width) ==> c in "0123456789abcdef"
  {
    if width > 0 {
      HexReadsBack(n / 16, width - 1);
      DigitReadsBack(n % 16);
      assert Hex(n, width)[..width - 1] == Hex(n / 16, width - 1);
      assert Hex(n, width) == Hex(n / 16, width - 1) + [HexDigit(n % 16)];
    }
  }

  /** Hashes have 32 bits, which eight digits hold. */
  lemma HashFits(s: string)
    ensures Fnv32a(s) < Pow16(8)
  {
    assert Pow16(1) == 16 && Pow16(2) == 256 && Pow16(3) == 4096 && Pow16(4) == 0x1_0000;
    assert Pow16(5) == 0x10_0000 && Pow16(6) == 0x100_0000 && Pow16(7) == 0x1000_0000 && Pow16(8) == 0x1_0000_0000;
  }

  /** Two hashes print as the same eight digits only when they are equal. */
  lemma HashDigitsDiffer(a: string, b: string)
    ensures Hex(Fnv32a(a), 8) == Hex(Fnv32a(b), 8) <==> Fnv32a(a) == Fnv32a(b)
  {
    HashFits(a);
    HashFits(b);
    hide Fnv32a, Hex;
    HexReadsBack(Fnv32a(a), 8);
    HexReadsBack(Fnv32a(b), 8);
  }

  // ---------------------------------------------------------------- the hash

  function Pow2(bits: nat): (p: nat)
    ensures p > 0
  {
    if bits == 0 then 1 else 2 * Pow2(bits - 1)
  }

  lemma XorStep(a: nat, b: nat, bits: nat)
    requires bits > 0
    ensures Xor(a, b, bits) == (a + b) % 2 + 2 * Xor(a / 2, b / 2, bits - 1)
    ensures Xor(a, b, bits) / 2 == Xor(a / 2, b / 2, bits - 1) && Xor(a, b, bits) % 2 == (a + b) % 2
  {}

  lemma BitUndone(a: nat, b: nat, x: nat)
    requires x % 2 == (a + b) % 2
    ensures (x + b) % 2 == a % 2
  {
    assert (x + b) % 2 == ((a + b) % 2 + b) % 2;
  }

  lemma {:induction false} XorUndone(a: nat, b: nat, bits: nat)
    requires a < Pow2(bits) && b < Pow2(bits)
    ensures Xor(a, b, bits) < Pow2(bits) && Xor(Xor(a, b, bits), b, bits) == a
  {
    if bits > 0 {
      XorUndone(a / 2, b / 2, bits - 1);
      XorStep(a, b, bits);
      XorStep(Xor(a, b, bits), b, bits);
      BitUndone(a, b, Xor(a, b, bits));
      hide Xor;
    }
  }

  lemma {:induction false} XorSwaps(a: nat, b: nat, bits: nat)
    ensures Xor(a, b, bits) == Xor(b, a, bits)
  {
    if bits > 0 { XorSwaps(a / 2, b / 2, bits - 1); }
  }

  lemma Bytes()
    ensures Pow2(8) == 256
  {
    assert Pow2(1) == 2 && Pow2(2) == 4 && Pow2(3) == 8 && Pow2(4) == 16 && Pow2(5) == 32 && Pow2(6) == 64 && Pow2(7) == 128;
  }

  /** The FNV prime is odd, so that multiplying by it, wrapped to 32 bits, can be undone. */
  lemma PrimeUndone(h: nat)
    requires h < 0x1_0000_0000
    ensures (h * 0x0100_0193 % 0x1_0000_0000) * 0x359c_449b % 0x1_0000_0000 == h
  {
    var k := h * 0x0100_0193 / 0x1_0000_0000;
    var r := h * 0x0100_0193 % 0x1_0000_0000;
    var j := 0x0100_0193 * 0x359c_449b / 0x1_0000_0000;
    assert 0x0100_0193 * 0x359c_449b == 0x1_0000_0000 * j + 1;
    assert r * 0x359c_449b == h + 0x1_0000_0000 * (h * j - k * 0x359c_449b);
    Wraps(h, h * j - k * 0x359c_449b);
  }

  lemma Wraps(h: nat, t: int)
    requires h < 0x1_0000_0000
    ensures (h + 0x1_0000_0000 * t) % 0x1_0000_0000 == h
  {}

  /** The hash with its lowest byte mixed, before the multiplication. */
  function LowMixed(h: nat, a: nat): nat
    requires a < 256
  {
    h - h % 256 + Xor(h % 256, a, 8)
  }

  lemma LowUndone(h: nat, a: nat)
    requires h < 0x1_0000_0000 && a < 256
    ensures LowMixed(h, a) < 0x1_0000_0000
    ensures LowMixed(h, a) - LowMixed(h, a) % 256 == h - h % 256
    ensures Xor(LowMixed(h, a) % 256, a, 8) == h % 256 && Xor(LowMixed(h, a) % 256, h % 256, 8) == a
  {
    Bytes();
    hide Xor, Pow2;
    XorUndone(h % 256, a, 8);
    XorSwaps(h % 256, a, 8);
    XorUndone(a, h % 256, 8);
    var x := Xor(h % 256, a, 8);
    assert LowMixed(h, a) == 256 * (h / 256) + x && x < 256;
    assert LowMixed(h, a) % 256 == x;
  }

  lemma MixedIs(h: nat, x: char)
    ensures Mixed(h, x) == LowMixed(h, x as int % 256) * 0x0100_0193 % 0x1_0000_0000
  {
    hide Xor;
  }

  /** One byte takes different hashes to different hashes, and different bytes take one hash to different ones. */
  lemma MixedApart(g: nat, h: nat, x: char, y: char)
    requires g < 0x1_0000_0000 && h < 0x1_0000_0000
    ensures Mixed(g, x) == Mixed(h, x) <==> g == h
    ensures Mixed(h, x) == Mixed(h, y) <==> x as int % 256 == y as int % 256
  {
    var a, b := x as int % 256, y as int % 256;
    MixedIs(g, x);
    MixedIs(h, x);
    MixedIs(h, y);
    LowUndone(g, a);
    LowUndone(h, a);
    LowUndone(h, b);
    PrimeUndone(LowMixed(g, a));
    PrimeUndone(LowMixed(h, a));
    PrimeUndone(LowMixed(h, b));
    hide Mixed, Xor, LowMixed;
    SplitByte(g);
    SplitByte(h);
  }

  lemma SplitByte(h: nat)
    ensures h == (h - h % 256) + h % 256
  {}

  lemma HashOfLast(p: string, x: char)
    ensures Fnv32a(p + [x]) == Mixed(Fnv32a(p), x) && Fnv32a(p) < 0x1_0000_0000
  {
    assert (p + [x])[..|p + [x]| - 1] == p;
  }

  /** A common ending keeps hashes equal or apart. */
  lemma {:induction false} HashesStayApart(p: string, q: string, ending: string)
    ensures Fnv32a(p + ending) == Fnv32a(q + ending) <==> Fnv32a(p) == Fnv32a(q)
  {
    if ending == [] {
      assert p + ending == p && q + ending == q;
    } else {
      var front, x := ending[..|ending| - 1], ending[|ending| - 1];
      HashesStayApart(p, q, front);
      assert ending == front + [x];
      assert p + ending == p + front + [x] && q + ending == q + front + [x];
      HashOfLast(p + front, x);
      HashOfLast(q + front, x);
      hide Mixed, Fnv32a;
      MixedApart(Fnv32a(p + front), Fnv32a(q + front), x, x);
    }
  }

  /** Names that differ in exactly one byte, wherever it is, have different hashes. */
  lemma OneByteChangesHash(before: string, x: char, y: char, ending: string)
    ensures Fnv32a(before + [x] + ending) == Fnv32a(before + [y] + ending) <==> x as int % 256 == y as int % 256
  {
    hide Mixed, Fnv32a;
    HashesStayApart(before + [x], before + [y], ending);
    HashOfLast(before, x);
    HashOfLast(before, y);
    MixedApart(Fnv32a(before), Fnv32a(before), x, y);
  }

  lemma KnownXor()
    ensures Xor(0xc5, 0x61, 8) == 0xa4
  {
    assert Xor(0, 0, 0) == 0;
    XorStep(0xc5, 0x61, 8);
    XorStep(0x62, 0x30, 7);
    XorStep(0x31, 0x18, 6);
    XorStep(0x18, 0x0c, 5);
    XorStep(0x0c, 0x06, 4);
    XorStep(0x06, 0x03, 3);
    XorStep(0x03, 0x01, 2);
    XorStep(0x01, 0x00, 1);
    hide Xor;
  }

  lemma HashStep(p: string, x: char, rest: nat, low: nat, mixed: nat)
    requires Fnv32a(p) == 256 * rest + low && low < 256 && x as int < 256 && mixed == Xor(low, x as int, 8)
    ensures Fnv32a(p + [x]) == (256 * rest + mixed) * 0x0100_0193 % 0x1_0000_0000
  {
    HashOfLast(p, x);
    MixedIs(Fnv32a(p), x);
    hide Fnv32a, Mixed, Xor;
    assert (256 * rest + low) % 256 == low;
  }

  lemma HashOfNothing()
    ensures Fnv32a("") == 256 * 0x81_1c9d + 0xc5 && Fnv32a("") == 0x811c_9dc5
  {}

  /** Published FNV-1a values. */
  lemma KnownHashes()
    ensures Fnv32a("") == 0x811c_9dc5 && Fnv32a("a") == 0xe40c_292c
  {
    hide *;
    HashOfNothing();
    KnownXor();
    HashStep("", 'a', 0x81_1c9d, 0xc5, 0xa4);
    assert "" + ['a'] == "a";
  }

  // ---------------------------------------------------------------- which claims share a value

  /**
   Names of at most 27 bytes have equal values only when equal. Longer ones keep their first 18 bytes and the eight
   digits of their hash, and have equal values exactly when both are equal. A short name has a long one's value exactly
   when it spells that prefix, a dash and those digits.
   */
  lemma SameValueExactly(a: string, b: string)
    ensures |a| <= 27 && |b| <= 27 ==>
      (NormalizeNodeClaimTagValue(a) == NormalizeNodeClaimTagValue(b) <==> a == b)
    ensures |a| > 27 && |b| > 27 ==>
      (NormalizeNodeClaimTagValue(a) == NormalizeNodeClaimTagValue(b) <==> a[..18] == b[..18] && Fnv32a(a) == Fnv32a(b))
    ensures |a| > 27 && |b| <= 27 ==>
      (NormalizeNodeClaimTagValue(a) == NormalizeNodeClaimTagValue(b)
       <==> b[..if |b| < 18 then |b| else 18] == a[..18] && |b| == 27 && b[18] == '-' && b[19..] == Hex(Fnv32a(a), 8))
  {
    HashDigitsDiffer(a, b);
    hide Fnv32a, Hex;
    if |a| > 27 { LongValue(a); }
    if |b| > 27 { LongValue(b); }
  }

  lemma LongValue(a: string)
    requires |a| > 27
    ensures var v := NormalizeNodeClaimTagValue(a);
      |v| == 27 && v[..18] == a[..18] && v[18] == '-' && v[19..] == Hex(Fnv32a(a), 8)
    ensures forall b :: |b| == 27 && b[..18] == a[..18] && b[18] == '-' && b[19..] == Hex(Fnv32a(a), 8)
              ==> b == NormalizeNodeClaimTagValue(a)
  {
    hide Fnv32a, Hex;
    forall b: string | |b| == 27 && b[..18] == a[..18] && b[18] == '-' && b[19..] == Hex(Fnv32a(a), 8)
      ensures b == NormalizeNodeClaimTagValue(a)
    {
      assert b == b[..18] + [b[18]] + b[19..];
    }
  }

  /** Claims whose long names differ in one byte only get different tags. */
  lemma OneByteChangesTag(before: string, x: char, y: char, ending: string)
    requires x as int % 256 != y as int % 256
    ensures NodeClaimTag(before + [x] + ending) != NodeClaimTag(before + [y] + ending)
  {
    var a, b := before + [x] + ending, before + [y] + ending;
    assert a != b by { assert a[|before|] != b[|before|]; }
    OneByteChangesHash(before, x, y, ending);
    SameValueExactly(a, b);
    hide NormalizeNodeClaimTagValue, Fnv32a;
    assert NodeClaimTag(a)[|NODE_CLAIM_TAG_KEY| + 1..] == NormalizeNodeClaimTagValue(a);
    assert NodeClaimTag(b)[|NODE_CLAIM_TAG_KEY| + 1..] == NormalizeNodeClaimTagValue(b);
  }
}
