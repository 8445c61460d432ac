/** The image checksum of the build script. Words of the image are bit-reversed and
    put through the reflected CRC-32 of a library; reversing and complementing the
    outcome gives the MSB-first CRC of the byte-swapped words. Numbers are unbounded,
    as in the script; registers are bit strings, least significant bit first. */
module Crc32 {

  const WIDTH := 32

  function Pow2(n: nat): (p: nat)
    ensures p >= 1
  {
    if n == 0 then 1 else 2 * Pow2(n - 1)
  }

  /** The low n bits of a number, least significant first. */
  function Bits(x: nat, n: nat): (s: seq<bool>)
    ensures |s| == n
  {
    if n == 0 then [] else [x % 2 == 1] + Bits(x / 2, n - 1)
  }

  /** The number with given bits. */
  function Value(s: seq<bool>): (x: nat)
    ensures x < Pow2(|s|)
  {
    if s == [] then 0 else (if s[0] then 1 else 0) + 2 * Value(s[1..])
  }

  lemma {:induction false} BitsOfValue(s: seq<bool>)
    ensures Bits(Value(s), |s|) == s
  {
    if s != [] { BitsOfValue(s[1..]); }
  }

  function Reversed(s: seq<bool>): (r: seq<bool>)
    ensures |r| == |s| && forall k :: 0 <= k < |s| ==> r[k] == s[|s| - 1 - k]
  {
    seq(|s|, k requires 0 <= k < |s| => s[|s| - 1 - k])
  }

  function Not(s: seq<bool>): (r: seq<bool>)
    ensures |r| == |s| && forall k :: 0 <= k < |s| ==> r[k] == !s[k]
  {
    seq(|s|, k requires 0 <= k < |s| => !s[k])
  }

  function Xor(s: seq<bool>, t: seq<bool>): (r: seq<bool>)
    requires |s| == |t|
    ensures |r| == |s| && forall k :: 0 <= k < |s| ==> r[k] == (s[k] != t[k])
  {
    seq(|s|, k requires 0 <= k < |s| => s[k] != t[k])
  }

  lemma BitsDouble(r: nat, b: bool, n: nat)
    ensures Bits(2 * r + (if b then 1 else 0), n + 1) == [b] + Bits(r, n)
  {
    var x := 2 * r + (if b then 1 else 0);
    assert x / 2 == r && (x % 2 == 1) == b;
  }

  lemma ReversedAppend(s: seq<bool>, b: bool)
    ensures Reversed(s + [b]) == [b] + Reversed(s)
  {
  }

  /** One bit moves from the low end of the data to that of the result. */
  lemma SwapStep(result: nat, data: nat, n: nat, taken: seq<bool>)
    requires n < WIDTH && result < Pow2(n) && Bits(result, n) == Reversed(taken)
    ensures var b := data % 2 == 1; var r := 2 * result + (if b then 1 else 0);
      && r < Pow2(n + 1) && Bits(r, n + 1) == Reversed(taken + [b])
      && taken + Bits(data, WIDTH - n) == taken + [b] + Bits(data / 2, WIDTH - n - 1)
  {
    var b := data % 2 == 1;
    BitsDouble(result, b, n);
    ReversedAppend(taken, b);
    assert Bits(data, WIDTH - n) == [b] + Bits(data / 2, WIDTH - n - 1);
  }

  /** Reverses the low 32 bits of a number; higher bits are dropped. */
  method BitSwap(data0: nat) returns (result: nat)
    ensures result < Pow2(WIDTH)
    ensures Bits(result, WIDTH) == Reversed(Bits(data0, WIDTH))
  {
    result := 0;
    var data := data0;
    ghost var taken: seq<bool> := [];
    for n := 0 to WIDTH
      invariant |taken| == n && Bits(data0, WIDTH) == taken + Bits(data, WIDTH - n)
      invariant result < Pow2(n) && Bits(result, n) == Reversed(taken)
    {
      SwapStep(result, data, n, taken);
      taken := taken + [data % 2 == 1];
      result := 2 * result;
      if data % 2 == 1 {
        result := result + 1;
      }
      data := data / 2;
    }
  }

  /** The octets of a 32-bit number, most significant first. */
  function BigEndian(x: nat): seq<nat> {
    [x / 0x100_0000 % 0x100, x / 0x1_0000 % 0x100, x / 0x100 % 0x100, x % 0x100]
  }

  function ByteSwap32(x: nat): nat {
    x % 0x100 * 0x100_0000 + x / 0x100 % 0x100 * 0x1_0000
    + x / 0x1_0000 % 0x100 * 0x100 + x / 0x100_0000 % 0x100
  }

  /** One bit enters a register that shifts towards its low end (section 8 of
      RFC 1952 describes the register of the library). */
  function ReflectedStep(poly: seq<bool>, reg: seq<bool>, b: bool): (r: seq<bool>)
    requires |reg| == |poly| > 0
    ensures |r| == |poly|
  {
    var shifted := reg[1..] + [false];
    if reg[0] != b then Xor(shifted, poly) else shifted
  }

  /** One bit enters a register that shifts towards its high end. */
  function MsbStep(poly: seq<bool>, reg: seq<bool>, b: bool): (r: seq<bool>)
    requires |reg| == |poly| > 0
    ensures |r| == |poly|
  {
    var shifted := [false] + reg[..|reg| - 1];
    if reg[|reg| - 1] != b then Xor(shifted, poly) else shifted
  }

  function Reflected(poly: seq<bool>, reg: seq<bool>, bits: seq<bool>): (r: seq<bool>)
    requires |reg| == |poly| > 0
    ensures |r| == |poly|
  {
    if bits == [] then reg
    else ReflectedStep(poly, Reflected(poly, reg, bits[..|bits| - 1]), bits[|bits| - 1])
  }

  function MsbFirst(poly: seq<bool>, reg: seq<bool>, bits: seq<bool>): (r: seq<bool>)
    requires |reg| == |poly| > 0
    ensures |r| == |poly|
  {
    if bits == [] then reg
    else MsbStep(poly, MsbFirst(poly, reg, bits[..|bits| - 1]), bits[|bits| - 1])
  }

  lemma ShiftMirrors(reg: seq<bool>)
    requires reg != []
    ensures Reversed(reg[1..] + [false]) == [false] + Reversed(reg)[..|reg| - 1]
    ensures Reversed(reg)[|reg| - 1] == reg[0]
  {
  }

  lemma XorMirrors(s: seq<bool>, t: seq<bool>)
    requires |s| == |t|
    ensures Reversed(Xor(s, t)) == Xor(Reversed(s), Reversed(t))
  {
  }

  lemma StepsMirror(poly: seq<bool>, reg: seq<bool>, b: bool)
    requires |reg| == |poly| > 0
    ensures Reversed(ReflectedStep(poly, reg, b)) == MsbStep(Reversed(poly), Reversed(reg), b)
  {
    var shifted := reg[1..] + [false];
    ShiftMirrors(reg);
    XorMirrors(shifted, poly);
  }

  /** For any polynomial the two registers are mirror images of each other. */
  lemma {:induction false} RegistersMirror(poly: seq<bool>, reg: seq<bool>, bits: seq<bool>)
    requires |reg| == |poly| > 0
    ensures Reversed(Reflected(poly, reg, bits)) == MsbFirst(Reversed(poly), Reversed(reg), bits)
  {
    if bits != [] {
      var n := |bits| - 1;
      RegistersMirror(poly, reg, bits[..n]);
      StepsMirror(poly, Reflected(poly, reg, bits[..n]), bits[n]);
    }
  }

  lemma {:induction false} ReflectedConcat(poly: seq<bool>, reg: seq<bool>, x: seq<bool>, y: seq<bool>)
    requires |reg| == |poly| > 0
    ensures Reflected(poly, reg, x + y) == Reflected(poly, Reflected(poly, reg, x), y)
  {
    if y == [] {
      assert x + y == x;
    } else {
      var n := |y| - 1;
      ReflectedConcat(poly, reg, x, y[..n]);
      assert (x + y)[..|x + y| - 1] == x + y[..n];
    }
  }

  /** Octets enter least significant bit first. */
  function OctetBits(octets: seq<nat>): seq<bool> {
    if octets == [] then [] else Bits(octets[0], 8) + OctetBits(octets[1..])
  }

  const REFLECTED_POLY := 0xEDB8_8320
  const POLY := 0x04C1_1DB7

  /** The library's checksum of some octets, continued from an earlier checksum. */
  function LibraryCrc32(octets: seq<nat>, earlier: nat): (crc: nat)
    ensures crc < Pow2(WIDTH)
  {
    Value(Not(Reflected(Bits(REFLECTED_POLY, WIDTH), Not(Bits(earlier, WIDTH)), OctetBits(octets))))
  }

  /** What is left of a number after n halvings. */
  function Halved(x: nat, n: nat): nat {
    if n == 0 then x else Halved(x, n - 1) / 2
  }

  lemma {:induction false} HalvedFirst(x: nat, n: nat)
    requires n > 0
    ensures Halved(x, n) == Halved(x / 2, n - 1)
  {
    if n > 1 { HalvedFirst(x, n - 1); }
  }

  lemma {:induction false} BitsSplit(x: nat, m: nat, n: nat)
    ensures Bits(x, m + n) == Bits(x, m) + Bits(Halved(x, m), n)
  {
    if m > 0 {
      BitsSplit(x / 2, m - 1, n);
      HalvedFirst(x, m);
    }
  }

  lemma HalvedEight(x: nat)
    ensures Halved(x, 0) == x && Halved(x, 1) == x / 2 && Halved(x, 2) == x / 4 && Halved(x, 3) == x / 8
    ensures Halved(x, 4) == x / 16 && Halved(x, 5) == x / 32 && Halved(x, 6) == x / 64
    ensures Halved(x, 7) == x / 128 && Halved(x, 8) == x / 0x100
  {
    assert Halved(x, 1) == x / 2;
    assert Halved(x, 2) == x / 4;
    assert Halved(x, 3) == x / 8;
    assert Halved(x, 4) == x / 16;
    assert Halved(x, 5) == x / 32;
    assert Halved(x, 6) == x / 64;
    assert Halved(x, 7) == x / 128;
  }

  lemma {:induction false} LowBits(q: nat, r: nat, n: nat)
    ensures Bits(Pow2(n) * q + r, n) == Bits(r, n)
  {
    if n > 0 {
      var t := Pow2(n - 1) * q;
      assert Pow2(n) * q == 2 * t;
      LowBits(q, r / 2, n - 1);
    }
  }

  /** The low eight bits only depend on the lowest octet. */
  lemma OctetBitsOfNumber(x: nat)
    ensures Bits(x % 0x100, 8) == Bits(x, 8)
  {
    assert Pow2(8) == 0x100;
    LowBits(x / 0x100, x % 0x100, 8);
  }

  /** A word is its four octets, lowest first. */
  lemma WordBits(x: nat)
    ensures Bits(x, WIDTH) == Bits(x % 0x100, 8) + Bits(x / 0x100 % 0x100, 8)
                              + Bits(x / 0x1_0000 % 0x100, 8) + Bits(x / 0x100_0000 % 0x100, 8)
  {
    BitsSplit(x, 8, 24);
    HalvedEight(x);
    BitsSplit(x / 0x100, 8, 16);
    HalvedEight(x / 0x100);
    BitsSplit(x / 0x1_0000, 8, 8);
    HalvedEight(x / 0x1_0000);
    assert x / 0x100 / 0x100 == x / 0x1_0000 && x / 0x1_0000 / 0x100 == x / 0x100_0000;
    OctetBitsOfNumber(x);
    OctetBitsOfNumber(x / 0x100);
    OctetBitsOfNumber(x / 0x1_0000);
    OctetBitsOfNumber(x / 0x100_0000);
  }

  lemma ReversedConcat(x: seq<bool>, y: seq<bool>)
    ensures Reversed(x + y) == Reversed(y) + Reversed(x)
  {
  }

  lemma ReversedFour(a: seq<bool>, b: seq<bool>, c: seq<bool>, d: seq<bool>)
    ensures Reversed(a + b + c + d) == Reversed(d) + Reversed(c) + Reversed(b) + Reversed(a)
  {
    ReversedConcat(a, b);
    ReversedConcat(a + b, c);
    ReversedConcat(a + b + c, d);
    assert Reversed(a + b + c + d) == Reversed(d) + (Reversed(c) + (Reversed(b) + Reversed(a)));
  }

  /** Bit k of a number is the parity after k halvings. */
  lemma {:induction false} BitAt(x: nat, n: nat, k: nat)
    requires k < n
    ensures Bits(x, n)[k] == (Halved(x, k) % 2 == 1)
  {
    if k > 0 {
      BitAt(x / 2, n - 1, k - 1);
      HalvedFirst(x, k);
    }
  }

  /** Octets whose bits mirror each other. */
  predicate Mirrors(x: nat, y: nat) {
    && x % 2 == y / 128 % 2 && x / 2 % 2 == y / 64 % 2 && x / 4 % 2 == y / 32 % 2
    && x / 8 % 2 == y / 16 % 2 && x / 16 % 2 == y / 8 % 2 && x / 32 % 2 == y / 4 % 2
    && x / 64 % 2 == y / 2 % 2 && x / 128 % 2 == y % 2
  }

  lemma MirrorHalved(x: nat, y: nat, k: nat)
    requires Mirrors(x, y) && k < 8
    ensures Halved(x, 7 - k) % 2 == Halved(y, k) % 2
  {
    HalvedEight(x);
    HalvedEight(y);
  }

  lemma MirrorOctet(x: nat, y: nat)
    requires Mirrors(x, y)
    ensures Reversed(Bits(x, 8)) == Bits(y, 8)
  {
    forall k | 0 <= k < 8 ensures Reversed(Bits(x, 8))[k] == Bits(y, 8)[k] {
      MirrorBit(x, y, k);
    }
  }

  lemma MirrorBit(x: nat, y: nat, k: nat)
    requires Mirrors(x, y) && k < 8
    ensures Reversed(Bits(x, 8))[k] == Bits(y, 8)[k]
  {
    BitAt(x, 8, 7 - k);
    BitAt(y, 8, k);
    MirrorHalved(x, y, k);
  }

  lemma MirrorWord(x: nat, y: nat)
    requires Reversed(Bits(x % 0x100, 8)) == Bits(y / 0x100_0000 % 0x100, 8)
    requires Reversed(Bits(x / 0x100 % 0x100, 8)) == Bits(y / 0x1_0000 % 0x100, 8)
    requires Reversed(Bits(x / 0x1_0000 % 0x100, 8)) == Bits(y / 0x100 % 0x100, 8)
    requires Reversed(Bits(x / 0x100_0000 % 0x100, 8)) == Bits(y % 0x100, 8)
    ensures Reversed(Bits(x, WIDTH)) == Bits(y, WIDTH)
  {
    WordBits(x);
    WordBits(y);
    ReversedFour(Bits(x % 0x100, 8), Bits(x / 0x100 % 0x100, 8),
                 Bits(x / 0x1_0000 % 0x100, 8), Bits(x / 0x100_0000 % 0x100, 8));
  }

  /** The octets of the two polynomials. */
  lemma PolynomialOctets(x: nat, y: nat)
    requires x == 0xEDB8_8320 && y == 0x04C1_1DB7
    ensures x % 0x100 == 0x20 && x / 0x100 % 0x100 == 0x83
    ensures x / 0x1_0000 % 0x100 == 0xB8 && x / 0x100_0000 % 0x100 == 0xED
    ensures y % 0x100 == 0xB7 && y / 0x100 % 0x100 == 0x1D
    ensures y / 0x1_0000 % 0x100 == 0xC1 && y / 0x100_0000 % 0x100 == 0x04
  {
  }

  /** The octets of one word, last to first, mirror those of the other. */
  predicate MirrorsWord(x: nat, y: nat) {
    && Mirrors(x % 0x100, y / 0x100_0000 % 0x100)
    && Mirrors(x / 0x100 % 0x100, y / 0x1_0000 % 0x100)
    && Mirrors(x / 0x1_0000 % 0x100, y / 0x100 % 0x100)
    && Mirrors(x / 0x100_0000 % 0x100, y % 0x100)
  }

  lemma MirrorOctets(x: nat, y: nat)
    requires MirrorsWord(x, y)
    ensures Reversed(Bits(x, WIDTH)) == Bits(y, WIDTH)
  {
    MirrorOctet(x % 0x100, y / 0x100_0000 % 0x100);
    MirrorOctet(x / 0x100 % 0x100, y / 0x1_0000 % 0x100);
    MirrorOctet(x / 0x1_0000 % 0x100, y / 0x100 % 0x100);
    MirrorOctet(x / 0x100_0000 % 0x100, y % 0x100);
    MirrorWord(x, y);
  }

  lemma MirrorWords(x: nat, y: nat)
    requires x == 0xEDB8_8320 && y == 0x04C1_1DB7
    ensures MirrorsWord(x, y)
  {
    PolynomialOctets(x, y);
  }

  /** The library's polynomial is the mirror image of 0x04C11DB7. */
  lemma PolynomialsMirror()
    ensures Reversed(Bits(REFLECTED_POLY, WIDTH)) == Bits(POLY, WIDTH)
  {
    MirrorWords(REFLECTED_POLY, POLY);
    MirrorOctets(REFLECTED_POLY, POLY);
  }

  /** The bits of one image word in the order they enter the library's register. */
  lemma WordFeed(w: nat, swapped: nat)
    requires swapped < Pow2(WIDTH) && Bits(swapped, WIDTH) == Reversed(Bits(w, WIDTH))
    ensures OctetBits(BigEndian(swapped)) == Reversed(Bits(ByteSwap32(w), WIDTH))
  {
    var a, b := Bits(swapped % 0x100, 8), Bits(swapped / 0x100 % 0x100, 8);
    var c, d := Bits(swapped / 0x1_0000 % 0x100, 8), Bits(swapped / 0x100_0000 % 0x100, 8);
    var w0, w1 := Bits(w % 0x100, 8), Bits(w / 0x100 % 0x100, 8);
    var w2, w3 := Bits(w / 0x1_0000 % 0x100, 8), Bits(w / 0x100_0000 % 0x100, 8);
    WordBits(swapped);
    WordBits(w);
    ByteSwapOctets(w);
    WordBits(ByteSwap32(w));
    FourOctets(BigEndian(swapped));
    ReversedFour(w0, w1, w2, w3);
    ReversedFour(w3, w2, w1, w0);
    SameQuarters(a, b, c, d, Reversed(w3), Reversed(w2), Reversed(w1), Reversed(w0));
  }

  lemma SameQuarters(a: seq<bool>, b: seq<bool>, c: seq<bool>, d: seq<bool>,
                     e: seq<bool>, f: seq<bool>, g: seq<bool>, h: seq<bool>)
    requires |a| == |b| == |c| == |d| == |e| == |f| == |g| == |h| == 8
    requires a + b + c + d == e + f + g + h
    ensures a == e && b == f && c == g && d == h
  {
    var s := a + b + c + d;
    assert a == s[..8] && b == s[8..16] && c == s[16..24] && d == s[24..];
  }

  lemma FourOctets(o: seq<nat>)
    requires |o| == 4
    ensures OctetBits(o) == Bits(o[0], 8) + Bits(o[1], 8) + Bits(o[2], 8) + Bits(o[3], 8)
  {
    assert o[1..][1..] == o[2..] && o[2..][1..] == o[3..] && o[3..][1..] == [];
    assert OctetBits(o[3..]) == Bits(o[3], 8) + OctetBits(o[3..][1..]);
    assert OctetBits(o[2..]) == Bits(o[2], 8) + OctetBits(o[3..]);
    assert OctetBits(o[1..]) == Bits(o[1], 8) + OctetBits(o[2..]);
  }

  lemma ByteSwapOctets(w: nat)
    ensures ByteSwap32(w) < 0x1_0000_0000
    ensures ByteSwap32(w) % 0x100 == w / 0x100_0000 % 0x100
    ensures ByteSwap32(w) / 0x100 % 0x100 == w / 0x1_0000 % 0x100
    ensures ByteSwap32(w) / 0x1_0000 % 0x100 == w / 0x100 % 0x100
    ensures ByteSwap32(w) / 0x100_0000 % 0x100 == w % 0x100
  {
    var d, c := w / 0x100_0000 % 0x100, w / 0x1_0000 % 0x100;
    var b, a := w / 0x100 % 0x100, w % 0x100;
    FromOctets(a, b, c, d);
  }

  lemma FromOctets(a: nat, b: nat, c: nat, d: nat)
    requires a < 0x100 && b < 0x100 && c < 0x100 && d < 0x100
    ensures var x := a * 0x100_0000 + b * 0x1_0000 + c * 0x100 + d;
      && x < 0x1_0000_0000 && x % 0x100 == d && x / 0x100 % 0x100 == c
      && x / 0x1_0000 % 0x100 == b && x / 0x100_0000 % 0x100 == a
  {
    var x := a * 0x100_0000 + b * 0x1_0000 + c * 0x100 + d;
    assert x / 0x100 == a * 0x1_0000 + b * 0x100 + c;
    assert x / 0x1_0000 == a * 0x100 + b;
    assert x / 0x100_0000 == a;
  }

  /** Exclusive or with 32 ones. */
  function Complement(x: nat): nat
    requires x < Pow2(WIDTH)
  {
    Pow2(WIDTH) - 1 - x
  }

  lemma {:induction false} ComplementBits(x: nat, n: nat)
    requires x < Pow2(n)
    ensures Bits(Pow2(n) - 1 - x, n) == Not(Bits(x, n))
  {
    if n > 0 {
      assert (Pow2(n) - 1 - x) / 2 == Pow2(n - 1) - 1 - x / 2;
      ComplementBits(x / 2, n - 1);
    }
  }

  /** The bits of an image: each word with its octets swapped, highest bit first. */
  function ImageBits(words: seq<nat>): seq<bool> {
    if words == [] then []
    else ImageBits(words[..|words| - 1]) + Reversed(Bits(ByteSwap32(words[|words| - 1]), WIDTH))
  }

  function Ones(): (s: seq<bool>)
    ensures |s| == WIDTH && forall k :: 0 <= k < WIDTH ==> s[k]
  {
    seq(WIDTH, _ => true)
  }

  /** The register inside the library after the words so far. */
  ghost predicate Holds(crc: nat, words: seq<nat>) {
    Not(Bits(crc, WIDTH)) == Reflected(Bits(REFLECTED_POLY, WIDTH), Ones(), ImageBits(words))
  }

  lemma HoldsNext(crc: nat, words: seq<nat>, w: nat, swapped: nat)
    requires Holds(crc, words)
    requires swapped < Pow2(WIDTH) && Bits(swapped, WIDTH) == Reversed(Bits(w, WIDTH))
    ensures Holds(LibraryCrc32(BigEndian(swapped), crc), words + [w])
  {
    var poly := Bits(REFLECTED_POLY, WIDTH);
    WordFeed(w, swapped);
    ImageBitsAppend(words, w);
    var more := Reversed(Bits(ByteSwap32(w), WIDTH));
    ReflectedConcat(poly, Ones(), ImageBits(words), more);
    NotOfValue(Reflected(poly, Not(Bits(crc, WIDTH)), more));
  }

  lemma ImageBitsAppend(words: seq<nat>, w: nat)
    ensures ImageBits(words + [w]) == ImageBits(words) + Reversed(Bits(ByteSwap32(w), WIDTH))
  {
    assert (words + [w])[..|words|] == words;
  }

  lemma NotOfValue(reg: seq<bool>)
    requires |reg| == WIDTH
    ensures Not(Bits(Value(Not(reg)), WIDTH)) == reg
  {
    BitsOfValue(Not(reg));
    assert Not(Not(reg)) == reg;
  }

  /** The register starts from zero, which the library complements. */
  method InitialCrc() returns (crc: nat)
    ensures crc < Pow2(WIDTH) && Holds(crc, [])
  {
    crc := 0;
    EmptyHolds();
  }

  /** One word of the image. */
  method FeedWord(crc0: nat, w: nat, ghost before: seq<nat>) returns (crc: nat)
    requires crc0 < Pow2(WIDTH) && Holds(crc0, before)
    ensures crc < Pow2(WIDTH) && Holds(crc, before + [w])
  {
    var swapped := BitSwap(w);
    HoldsNext(crc0, before, w, swapped);
    crc := LibraryCrc32(BigEndian(swapped), crc0);
  }

  /** The last steps: the register is reversed and complemented. */
  method FinalWord(inside: nat, ghost words: seq<nat>) returns (crc: nat)
    requires inside < Pow2(WIDTH) && Holds(inside, words)
    ensures crc < Pow2(WIDTH)
    ensures Bits(crc, WIDTH) == MsbFirst(Bits(POLY, WIDTH), Ones(), ImageBits(words))
  {
    var reversed := BitSwap(inside);
    FinalComplement(inside, reversed, words);
    crc := Complement(reversed);
  }

  lemma TakeOneMore<T>(s: seq<T>, n: nat)
    requires n < |s|
    ensures s[..n + 1] == s[..n] + [s[n]]
  {
  }

  lemma TakeAll<T>(s: seq<T>)
    ensures s[..|s|] == s
  {
  }

  /** The words one after the other. */
  method FeedWords(words: seq<nat>) returns (crc: nat)
    ensures crc < Pow2(WIDTH) && Holds(crc, words)
  {
    crc := InitialCrc();
    ghost var before: seq<nat> := [];
    for n := 0 to |words|
      invariant crc < Pow2(WIDTH) && Holds(crc, before) && before == words[..n]
    {
      TakeOneMore(words, n);
      crc := FeedWord(crc, words[n], before);
      before := before + [words[n]];
    }
    TakeAll(words);
  }

  /** The checksum of one image, as the build script computes it: equal to the bitwise
      MSB-first CRC-32 over the byte-swapped words, from an all-ones register and with
      no final complement. */
  method ImageCrc(words: seq<nat>) returns (crc: nat)
    ensures crc < Pow2(WIDTH)
    ensures Bits(crc, WIDTH) == MsbFirst(Bits(POLY, WIDTH), Ones(), ImageBits(words))
  {
    crc := FeedWords(words);
    crc := FinalWord(crc, words);
  }

  lemma EmptyHolds()
    ensures Holds(0, [])
  {
    ZeroBits(WIDTH);
    assert Not(Bits(0, WIDTH)) == Ones();
  }

  lemma {:induction false} ZeroBits(n: nat)
    ensures forall k :: 0 <= k < n ==> !Bits(0, n)[k]
  {
    if n > 0 { ZeroBits(n - 1); }
  }

  lemma ComplementWord(x: nat)
    requires x < Pow2(WIDTH)
    ensures Bits(Complement(x), WIDTH) == Not(Bits(x, WIDTH))
  {
    ComplementBits(x, WIDTH);
  }

  lemma NotOfReversed(s: seq<bool>)
    ensures Not(Reversed(s)) == Reversed(Not(s))
  {
  }

  lemma FinalComplement(inside: nat, swapped: nat, words: seq<nat>)
    requires Holds(inside, words)
    requires swapped < Pow2(WIDTH) && Bits(swapped, WIDTH) == Reversed(Bits(inside, WIDTH))
    ensures Bits(Complement(swapped), WIDTH) == MsbFirst(Bits(POLY, WIDTH), Ones(), ImageBits(words))
  {
    ComplementWord(swapped);
    NotOfReversed(Bits(inside, WIDTH));
    FinalMirror(Bits(REFLECTED_POLY, WIDTH), ImageBits(words));
    PolynomialsMirror();
  }

  lemma FinalMirror(poly: seq<bool>, bits: seq<bool>)
    requires |poly| == WIDTH
    ensures Reversed(Reflected(poly, Ones(), bits)) == MsbFirst(Reversed(poly), Ones(), bits)
  {
    RegistersMirror(poly, Ones(), bits);
    assert Reversed(Ones()) == Ones();
  }
}
