/** The check octet of a packet: an eight-bit CRC with the reversed polynomial
    x^8 + x^7 + x^4 + x^3 + x + 1, an all-ones start and a register that shifts
    towards its least significant bit. */
module Crc8 {
  import opened Bits

  const GNPOLY: bv8 := 0xd9
  const START: bv8 := 0xff

  /** One shift of the register. */
  function Shift(crc: bv8): bv8 {
    if crc & 1 != 0 then (crc >> 1) ^ GNPOLY else crc >> 1
  }

  function Shifts(crc: bv8, n: nat): bv8 {
    if n == 0 then crc else Shift(Shifts(crc, n - 1))
  }

  /** One octet enters the register. */
  function Absorb(crc: bv8, d: bv8): bv8 {
    Shifts(crc ^ d, 8)
  }

  /** The register after a run of octets. */
  function Register(crc: bv8, data: seq<bv8>): bv8 {
    if data == [] then crc
    else Absorb(Register(crc, data[..|data| - 1]), data[|data| - 1])
  }

  lemma RegisterAppend(crc: bv8, data: seq<bv8>, d: bv8)
    ensures Register(crc, data + [d]) == Absorb(Register(crc, data), d)
  {
    assert (data + [d])[..|data|] == data;
  }

  lemma RegisterStep(data: seq<bv8>, k: nat)
    requires k < |data|
    ensures Register(START, data[..k + 1]) == Absorb(Register(START, data[..k]), data[k])
  {
    RegisterAppend(START, data[..k], data[k]);
    assert data[..k] + [data[k]] == data[..k + 1];
  }

  /** The shift as the code does it, in a variable of sixteen bits. */
  lemma WideShift(c: bv8)
    ensures var w := c as bv16;
      (if w & 1 != 0 then (w >> 1) ^ (GNPOLY as bv16) else w >> 1) == Shift(c) as bv16
  {
  }

  lemma WideXor(c: bv8, d: bv8)
    ensures (c as bv16) ^ (d as bv16) == (c ^ d) as bv16
  {
  }

  method UpdateCrc8Loop(crc0: bv16, loopNo: nat, gnp: bv8, ghost register: bv8) returns (crc: bv16)
    requires gnp == GNPOLY && crc0 == register as bv16
    ensures crc == Shifts(register, loopNo) as bv16
  {
    crc := crc0;
    for cnt := 0 to loopNo
      invariant crc == Shifts(register, cnt) as bv16
    {
      WideShift(Shifts(register, cnt));
      crc := if crc & 1 != 0 then (crc >> 1) ^ (gnp as bv16) else crc >> 1;
    }
  }

  /** Encodes the first `dataLen` octets, or also takes the octet after them when
      it is verifying. */
  method CrcEncoder(data: seq<bv8>, dataLen: nat, encode: bool) returns (parity: bv8)
    requires dataLen <= |data| && (!encode ==> dataLen < |data|)
    ensures parity == Register(START, data[..if encode then dataLen else dataLen + 1])
  {
    var gnp := GNPOLY;
    var crc: bv16 := 0xff;
    for cnt := 0 to dataLen
      invariant crc == Register(START, data[..cnt]) as bv16
    {
      RegisterStep(data, cnt);
      crc := AbsorbOctet(crc, data[cnt], gnp, Register(START, data[..cnt]));
    }
    if !encode {
      RegisterStep(data, dataLen);
      crc := AbsorbOctet(crc, data[dataLen], gnp, Register(START, data[..dataLen]));
    }
    LowByte(Register(START, data[..if encode then dataLen else dataLen + 1]));
    parity := (crc & 0xff) as bv8;
  }

  lemma LowByte(c: bv8)
    ensures (c as bv16) & 0xff == c as bv16
  {
  }

  lemma WideXorOf(w: bv16, c: bv8, d: bv8)
    requires w == c as bv16
    ensures w ^ (d as bv16) == (c ^ d) as bv16
  {
    WideXor(c, d);
  }

  method XorOctet(crc0: bv16, d: bv8, ghost register: bv8) returns (crc: bv16)
    requires crc0 == register as bv16
    ensures crc == (register ^ d) as bv16
  {
    WideXorOf(crc0, register, d);
    crc := crc0 ^ (d as bv16);
  }

  lemma AbsorbIs(register: bv8, d: bv8, mixed: bv8)
    requires mixed == register ^ d
    ensures Shifts(mixed, 8) == Absorb(register, d)
  {
  }

  method AbsorbOctet(crc0: bv16, d: bv8, gnp: bv8, ghost register: bv8) returns (crc: bv16)
    requires gnp == GNPOLY && crc0 == register as bv16
    ensures crc == Absorb(register, d) as bv16
  {
    ghost var mixed := register ^ d;
    crc := XorOctet(crc0, d, register);
    AbsorbIs(register, d, mixed);
    crc := UpdateCrc8Loop(crc, 8, gnp, mixed);
  }

  method CalculateCrc8(data: seq<bv8>, dataLen: nat) returns (crc: bv8)
    requires dataLen <= |data|
    ensures crc == Register(START, data[..dataLen])
  {
    crc := CrcEncoder(data, dataLen, true);
  }

  method VerifyCrc8(data: seq<bv8>, dataLen: nat) returns (ok: bool)
    requires dataLen < |data|
    ensures ok <==> data[dataLen] == Register(START, data[..dataLen])
    ensures ok <==> Passes(data[..dataLen + 1])
  {
    var parity := CrcEncoder(data, dataLen, false);
    PassesIffCheckOctet(data[..dataLen], data[dataLen]);
    assert data[..dataLen] + [data[dataLen]] == data[..dataLen + 1];
    ok := parity == 0;
  }

  /** A packet whose register ends at zero. */
  predicate Passes(packet: seq<bv8>) {
    Register(START, packet) == 0
  }

  lemma ShiftInjective(x: bv8, y: bv8)
    ensures Shift(x) == Shift(y) <==> x == y
  {
  }

  lemma {:induction false} ShiftsInjective(x: bv8, y: bv8, n: nat)
    ensures Shifts(x, n) == Shifts(y, n) <==> x == y
  {
    if n > 0 {
      ShiftInjective(Shifts(x, n - 1), Shifts(y, n - 1));
      ShiftsInjective(x, y, n - 1);
    }
  }

  lemma {:induction false} ShiftsZero(n: nat)
    ensures Shifts(0, n) == 0
  {
    if n > 0 { ShiftsZero(n - 1); }
  }

  /** The check passes exactly when the last octet is the one that encoding the
      octets before it gives. */
  lemma PassesIffCheckOctet(data: seq<bv8>, check: bv8)
    ensures Passes(data + [check]) <==> check == Register(START, data)
  {
    var r := Register(START, data);
    RegisterAppend(START, data, check);
    ShiftsZero(8);
    ShiftsInjective(r ^ check, 0, 8);
    XorZero(r, check);
  }

  lemma XorZero(x: bv8, y: bv8)
    ensures x ^ y == 0 <==> x == y
  {
  }

  /** The same register fed one bit at a time. */
  function Feed(crc: bv8, b: bool): bv8 {
    Shift(crc ^ (if b then 1 else 0))
  }

  function FeedBits(crc: bv8, bits: seq<bool>): bv8 {
    if bits == [] then crc
    else Feed(FeedBits(crc, bits[..|bits| - 1]), bits[|bits| - 1])
  }

  lemma {:induction false} FeedBitsConcat(crc: bv8, x: seq<bool>, y: seq<bool>)
    ensures FeedBits(crc, x + y) == FeedBits(FeedBits(crc, x), y)
  {
    if y == [] {
      assert x + y == x;
    } else {
      var n := |y| - 1;
      FeedBitsConcat(crc, x, y[..n]);
      assert (x + y)[..|x + y| - 1] == x + y[..n];
    }
  }

  lemma FeedInjective(x: bv8, y: bv8, b: bool)
    ensures Feed(x, b) == Feed(y, b) <==> x == y
  {
  }

  lemma {:induction false} FeedBitsInjective(x: bv8, y: bv8, bits: seq<bool>)
    ensures FeedBits(x, bits) == FeedBits(y, bits) <==> x == y
  {
    if bits != [] {
      var n := |bits| - 1;
      FeedInjective(FeedBits(x, bits[..n]), FeedBits(y, bits[..n]), bits[n]);
      FeedBitsInjective(x, y, bits[..n]);
    }
  }

  /** Bits above the lowest pass through a shift unchanged. */
  lemma ShiftSplits(f: bv8, e: bv8)
    ensures Shift(f ^ e) == Feed(f, e & 1 != 0) ^ (e >> 1)
  {
  }

  /** The bits left in an octet after n of them have been taken from the bottom. */
  function Rest(e: bv8, n: nat): bv8 {
    if n == 0 then e else Rest(e, n - 1) >> 1
  }

  lemma RestBits(d: bv8, k: nat)
    requires k < 8
    ensures (Rest(d, k) & 1 != 0) == BitOf(d, k)
    ensures Rest(d, 8) == 0
  {
    assert Rest(d, 1) == d >> 1 && Rest(d, 2) == d >> 2;
    assert Rest(d, 3) == d >> 3 && Rest(d, 4) == d >> 4;
    assert Rest(d, 5) == d >> 5 && Rest(d, 6) == d >> 6;
    assert Rest(d, 7) == d >> 7;
  }

  function FirstBits(d: bv8, n: nat): (s: seq<bool>)
    requires n <= 8
    ensures |s| == n && forall k :: 0 <= k < n ==> s[k] == BitOf(d, k)
  {
    seq(n, k requires 0 <= k < n => BitOf(d, k))
  }

  lemma FirstBitsFeed(crc: bv8, d: bv8, n: nat)
    requires n < 8
    ensures FeedBits(crc, FirstBits(d, n + 1)) == Feed(FeedBits(crc, FirstBits(d, n)), Rest(d, n) & 1 != 0)
  {
    RestBits(d, n);
    assert FirstBits(d, n + 1)[..n] == FirstBits(d, n);
  }

  lemma {:induction false} ShiftsFeed(crc: bv8, d: bv8, n: nat)
    requires n <= 8
    ensures Shifts(crc ^ d, n) == FeedBits(crc, FirstBits(d, n)) ^ Rest(d, n)
  {
    if n == 0 {
      assert FirstBits(d, 0) == [];
    } else {
      ShiftsFeed(crc, d, n - 1);
      ShiftSplits(FeedBits(crc, FirstBits(d, n - 1)), Rest(d, n - 1));
      FirstBitsFeed(crc, d, n - 1);
    }
  }

  /** Absorbing an octet at once is feeding its bits, least significant first. */
  lemma AbsorbIsFeed(crc: bv8, d: bv8)
    ensures Absorb(crc, d) == FeedBits(crc, FirstBits(d, 8))
  {
    ShiftsFeed(crc, d, 8);
    RestBits(d, 0);
  }

  lemma {:induction false} RegisterIsFeed(crc: bv8, data: seq<bv8>)
    ensures Register(crc, data) == FeedBits(crc, MessageBits(data))
  {
    if data == [] {
      assert MessageBits(data) == [];
    } else {
      var n := |data| - 1;
      RegisterIsFeed(crc, data[..n]);
      AbsorbIsFeed(Register(crc, data[..n]), data[n]);
      assert MessageBits(data) == MessageBits(data[..n]) + FirstBits(data[n], 8);
      FeedBitsConcat(crc, MessageBits(data[..n]), FirstBits(data[n], 8));
    }
  }

  /** The octet with given bits. */
  function OctetOf(w: seq<bool>): bv8
    requires |w| == 8
  {
    (if w[0] then 0x01 else 0) | (if w[1] then 0x02 else 0) | (if w[2] then 0x04 else 0) |
    (if w[3] then 0x08 else 0) | (if w[4] then 0x10 else 0) | (if w[5] then 0x20 else 0) |
    (if w[6] then 0x40 else 0) | (if w[7] then 0x80 else 0)
  }

  lemma OctetOfBits(w: seq<bool>)
    requires |w| == 8
    ensures FirstBits(OctetOf(w), 8) == w
  {
    var o := OctetOf(w);
    assert BitOf(o, 0) == w[0] && BitOf(o, 1) == w[1] && BitOf(o, 2) == w[2] && BitOf(o, 3) == w[3];
    assert BitOf(o, 4) == w[4] && BitOf(o, 5) == w[5] && BitOf(o, 6) == w[6] && BitOf(o, 7) == w[7];
  }

  /** Eight bits fed into one register leave different registers when they differ. */
  lemma WindowInjective(crc: bv8, x: seq<bool>, y: seq<bool>)
    requires |x| == |y| == 8 && FeedBits(crc, x) == FeedBits(crc, y)
    ensures x == y
  {
    OctetOfBits(x);
    OctetOfBits(y);
    AbsorbIsFeed(crc, OctetOf(x));
    AbsorbIsFeed(crc, OctetOf(y));
    ShiftsInjective(crc ^ OctetOf(x), crc ^ OctetOf(y), 8);
    assert crc ^ OctetOf(x) == crc ^ OctetOf(y) ==> OctetOf(x) == OctetOf(y);
  }

  /** The bits of a string before, inside and after a window. */
  lemma SplitFeed(crc: bv8, x: seq<bool>, lo: nat, hi: nat)
    requires lo <= hi <= |x|
    ensures x == x[..lo] + x[lo..hi] + x[hi..]
    ensures FeedBits(crc, x) == FeedBits(FeedBits(FeedBits(crc, x[..lo]), x[lo..hi]), x[hi..])
  {
    FeedBitsConcat(crc, x[..lo], x[lo..hi]);
    FeedBitsConcat(crc, x[..lo] + x[lo..hi], x[hi..]);
    assert x == x[..lo] + x[lo..hi] + x[hi..];
  }

  /** Two strings that agree outside a window end alike exactly if they leave it alike. */
  lemma WindowDecides(crc: bv8, x: seq<bool>, y: seq<bool>, lo: nat, hi: nat)
    requires |x| == |y| && lo <= hi <= |x| && x[..lo] == y[..lo] && x[hi..] == y[hi..]
    ensures FeedBits(crc, x) == FeedBits(crc, y) <==>
      FeedBits(FeedBits(crc, x[..lo]), x[lo..hi]) == FeedBits(FeedBits(crc, x[..lo]), y[lo..hi])
  {
    SplitFeed(crc, x, lo, hi);
    SplitFeed(crc, y, lo, hi);
    var start := FeedBits(crc, x[..lo]);
    FeedBitsInjective(FeedBits(start, x[lo..hi]), FeedBits(start, y[lo..hi]), x[hi..]);
  }

  lemma SameOutsideWindow(crc: bv8, x: seq<bool>, y: seq<bool>, lo: nat)
    requires |x| == |y| && lo + 8 <= |x| && FeedBits(crc, x) == FeedBits(crc, y)
    requires x[..lo] == y[..lo] && x[lo + 8..] == y[lo + 8..]
    ensures x == y
  {
    WindowDecides(crc, x, y, lo, lo + 8);
    WindowInjective(FeedBits(crc, x[..lo]), x[lo..lo + 8], y[lo..lo + 8]);
    assert x == x[..lo] + x[lo..lo + 8] + x[lo + 8..];
    assert y == y[..lo] + y[lo..lo + 8] + y[lo + 8..];
  }

  /** No error confined to eight consecutive bits goes unnoticed: two packets of one
      length that both pass and agree outside such a window are the same packet. */
  lemma BurstDetected(a: seq<bv8>, b: seq<bv8>, lo: nat)
    requires |a| == |b| > 0 && lo + 8 <= 8 * |a|
    requires Passes(a) && Passes(b)
    requires forall k :: 0 <= k < 8 * |a| && !(lo <= k < lo + 8) ==> MessageBits(a)[k] == MessageBits(b)[k]
    ensures a == b
  {
    RegisterIsFeed(START, a);
    RegisterIsFeed(START, b);
    SameOutsideWindow(START, MessageBits(a), MessageBits(b), lo);
    MessageBitsInjective(a, b);
  }

  /** The coefficients of the generator polynomial, from that of x^8 to that of 1. */
  const GENERATOR: seq<bool> := [true, true, false, false, true, true, false, true, true]

  lemma ShiftLinear(x: bv8, y: bv8)
    ensures Shift(x ^ y) == Shift(x) ^ Shift(y)
  {
  }

  lemma ShiftOfSum(x: bv8, y: bv8, z: bv8)
    requires z == x ^ y
    ensures Shift(z) == Shift(x) ^ Shift(y)
  {
    ShiftLinear(x, y);
  }

  lemma ShiftsMore(x: bv8, n: nat)
    ensures Shifts(x, n + 1) == Shift(Shifts(x, n))
  {
  }

  predicate SumAt(x: bv8, y: bv8, z: bv8, n: nat) {
    Shifts(z, n) == Shifts(x, n) ^ Shifts(y, n)
  }

  lemma SumNext(x: bv8, y: bv8, z: bv8, n: nat)
    requires SumAt(x, y, z, n)
    ensures SumAt(x, y, z, n + 1)
  {
    ShiftOfSum(Shifts(x, n), Shifts(y, n), Shifts(z, n));
    ShiftsMore(x, n);
    ShiftsMore(y, n);
    ShiftsMore(z, n);
  }

  /** Shifting is linear. */
  lemma {:induction false} ShiftsLinear(x: bv8, y: bv8, z: bv8, first: nat, more: nat)
    requires SumAt(x, y, z, first)
    ensures SumAt(x, y, z, first + more)
    decreases more
  {
    if more > 0 {
      SumNext(x, y, z, first);
      ShiftsLinear(x, y, z, first + 1, more - 1);
    }
  }

  /** The first eight coefficients of the generator leave the ninth in the register. */
  lemma GeneratorShifts()
    ensures Shifts(0xb3, 8) == 1
  {
    ShiftsMore(0xb3, 0);
    ShiftsMore(0xb3, 1);
    ShiftsMore(0xb3, 2);
    ShiftsMore(0xb3, 3);
    ShiftsMore(0xb3, 4);
    ShiftsMore(0xb3, 5);
    ShiftsMore(0xb3, 6);
    ShiftsMore(0xb3, 7);
  }

  /** Two octets differ by that octet exactly if their bits differ as the generator says. */
  lemma GeneratorOctet(x: bv8, y: bv8)
    ensures x ^ y == 0xb3 <==> forall k :: 0 <= k < 8 ==> (BitOf(x, k) != BitOf(y, k)) == GENERATOR[k]
  {
    if forall k :: 0 <= k < 8 ==> (BitOf(x, k) != BitOf(y, k)) == GENERATOR[k] {
      forall k: nat | k < 8 ensures BitOf(x ^ 0xb3, k) == BitOf(y, k) {
        GeneratorBit(x, k);
        assert (BitOf(x, k) != BitOf(y, k)) == GENERATOR[k];
      }
      SameBitsSameOctet(x ^ 0xb3, y);
      XorBack(x, y);
    } else if x ^ y == 0xb3 {
      XorBack(x, y);
      forall k: nat | k < 8 ensures (BitOf(x, k) != BitOf(y, k)) == GENERATOR[k] {
        GeneratorBit(x, k);
      }
    }
  }

  lemma XorBack(x: bv8, y: bv8)
    ensures x ^ y == 0xb3 <==> x ^ 0xb3 == y
  {
  }

  lemma GeneratorBit(x: bv8, k: nat)
    requires k < 8
    ensures BitOf(x ^ 0xb3, k) == (BitOf(x, k) != GENERATOR[k])
  {
  }

  lemma SameAfterLastBit(x: bv8, y: bv8, z: bv8, a: bool, b: bool)
    requires z == x ^ y
    ensures Feed(x, a) == Feed(y, b) <==> z == (if a == b then 0 else 1)
  {
    ShiftInjective(x ^ (if a then 1 else 0), y ^ (if b then 1 else 0));
  }

  lemma XorOfXors(c: bv8, x: bv8, y: bv8)
    ensures (c ^ x) ^ (c ^ y) == x ^ y
  {
  }

  lemma EightLeave(z: bv8)
    ensures Shifts(z, 8) == 1 <==> z == 0xb3
    ensures Shifts(z, 8) == 0 <==> z == 0
  {
    GeneratorShifts();
    ShiftsZero(8);
    ShiftsInjective(z, 0xb3, 8);
    ShiftsInjective(z, 0, 8);
  }

  lemma AbsorbedDifference(crc: bv8, x: bv8, y: bv8, z: bv8, p: bv8, q: bv8, n: nat)
    requires z == x ^ y && p == crc ^ x && q == crc ^ y
    ensures SumAt(p, q, z, n)
  {
    XorOfXors(crc, x, y);
    ShiftsLinear(p, q, z, 0, n);
  }

  /** Nine bits fed into one register leave the same register exactly when they are the same
      or differ by the generator. */
  lemma NineBitsFeed(crc: bv8, x: bv8, y: bv8, z: bv8, a: bool, b: bool)
    requires z == x ^ y
    ensures Feed(Absorb(crc, x), a) == Feed(Absorb(crc, y), b) <==> z == (if a == b then 0 else 0xb3)
  {
    AbsorbedDifference(crc, x, y, z, crc ^ x, crc ^ y, 8);
    SameAfterLastBit(Absorb(crc, x), Absorb(crc, y), Shifts(z, 8), a, b);
    EightLeave(z);
  }

  /** Nine bits that differ in the places of the generator's coefficients. */
  predicate GeneratorApart(x: seq<bool>, y: seq<bool>) {
    |x| == |y| == 9 && forall k :: 0 <= k < 9 ==> (x[k] != y[k]) == GENERATOR[k]
  }

  lemma NineBits(crc: bv8, w: seq<bool>, o: bv8)
    requires |w| == 9 && o == OctetOf(w[..8])
    ensures FeedBits(crc, w) == Feed(Absorb(crc, o), w[8])
    ensures forall k: nat :: k < 8 ==> BitOf(o, k) == w[k]
  {
    OctetOfBits(w[..8]);
    AbsorbIsFeed(crc, o);
    forall k: nat | k < 8 ensures BitOf(o, k) == w[k] {
      assert FirstBits(o, 8)[k] == w[..8][k];
    }
  }

  lemma NineBitWindow(crc: bv8, x: seq<bool>, y: seq<bool>, u: bv8, v: bv8)
    requires |x| == |y| == 9 && u == OctetOf(x[..8]) && v == OctetOf(y[..8])
    ensures FeedBits(crc, x) == FeedBits(crc, y) <==> x == y || GeneratorApart(x, y)
  {
    NineBits(crc, x, u);
    NineBits(crc, y, v);
    NineBitsFeed(crc, u, v, u ^ v, x[8], y[8]);
    NineBitsApart(x, y, u, v);
  }

  lemma NineBitsApart(x: seq<bool>, y: seq<bool>, u: bv8, v: bv8)
    requires |x| == |y| == 9
    requires forall k: nat :: k < 8 ==> BitOf(u, k) == x[k] && BitOf(v, k) == y[k]
    ensures GeneratorApart(x, y) <==> u ^ v == 0xb3 && x[8] != y[8]
    ensures x == y <==> u ^ v == 0 && x[8] == y[8]
  {
    GeneratorOctet(u, v);
    XorZero(u, v);
    if u ^ v == 0 && x[8] == y[8] {
      forall k: nat | k < 9 ensures x[k] == y[k] {
        if k < 8 { assert BitOf(u, k) == x[k] && BitOf(v, k) == y[k]; }
      }
    } else if x == y {
      SameBitsSameOctet(u, v);
    }
  }

  /** The polynomial is the shortest error that goes unnoticed: of two packets that agree
      outside nine consecutive bits, and one of which passes, the other one passes exactly
      if it is the same or differs in the places of the generator's coefficients. */
  lemma NineBitErrors(a: seq<bv8>, b: seq<bv8>, lo: nat)
    requires |a| == |b| && lo + 9 <= 8 * |a| && Passes(a)
    requires forall k :: 0 <= k < 8 * |a| && !(lo <= k < lo + 9) ==> MessageBits(a)[k] == MessageBits(b)[k]
    ensures Passes(b) <==>
      a == b || GeneratorApart(MessageBits(a)[lo..lo + 9], MessageBits(b)[lo..lo + 9])
  {
    RegisterIsFeed(START, a);
    RegisterIsFeed(START, b);
    NineBitStrings(START, MessageBits(a), MessageBits(b), lo);
    if MessageBits(a) == MessageBits(b) { MessageBitsInjective(a, b); }
  }

  lemma NineBitStrings(crc: bv8, x: seq<bool>, y: seq<bool>, lo: nat)
    requires |x| == |y| && lo + 9 <= |x|
    requires forall k :: 0 <= k < |x| && !(lo <= k < lo + 9) ==> x[k] == y[k]
    ensures FeedBits(crc, x) == FeedBits(crc, y) <==> x == y || GeneratorApart(x[lo..lo + 9], y[lo..lo + 9])
  {
    var p, q := x[lo..lo + 9], y[lo..lo + 9];
    assert x[..lo] == y[..lo] && x[lo + 9..] == y[lo + 9..];
    WindowDecides(crc, x, y, lo, lo + 9);
    NineBitWindow(FeedBits(crc, x[..lo]), p, q, OctetOf(p[..8]), OctetOf(q[..8]));
    SameWindow(x, y, lo, lo + 9);
  }

  lemma SameWindow<T>(x: seq<T>, y: seq<T>, lo: nat, hi: nat)
    requires |x| == |y| && lo <= hi <= |x| && x[..lo] == y[..lo] && x[hi..] == y[hi..]
    ensures x == y <==> x[lo..hi] == y[lo..hi]
  {
    assert x == x[..lo] + x[lo..hi] + x[hi..];
    assert y == y[..lo] + y[lo..hi] + y[hi..];
  }

  /** What the all-ones start is for: it complements the first octet, so that octets of
      zeros in front of a packet are not overlooked, and zeros alone never pass. */
  lemma StartComplements(d: bv8, rest: seq<bv8>)
    ensures Register(START, [d] + rest) == Register(0, [!d] + rest)
    decreases |rest|
  {
    FirstOctet(d);
    if rest == [] {
      RegisterAppend(START, [], d);
      RegisterAppend(0, [], !d);
    } else {
      var n := |rest| - 1;
      StartComplements(d, rest[..n]);
      RegisterAppend(START, [d] + rest[..n], rest[n]);
      RegisterAppend(0, [!d] + rest[..n], rest[n]);
      assert [d] + rest == ([d] + rest[..n]) + [rest[n]];
      assert [!d] + rest == ([!d] + rest[..n]) + [rest[n]];
    }
  }

  lemma FirstOctet(d: bv8)
    ensures START ^ d == 0 ^ !d
  {
  }

  lemma {:induction false} ZerosFail(a: seq<bv8>)
    requires forall k :: 0 <= k < |a| ==> a[k] == 0
    ensures !Passes(a)
  {
    if a != [] {
      var front := a[..|a| - 1];
      ZerosFail(front);
      RegisterAppend(START, front, 0);
      assert a == front + [0];
      ShiftsZero(8);
      ShiftsInjective(Register(START, front) ^ 0, 0, 8);
      XorZero(Register(START, front), 0);
    }
  }

  lemma MessageBitsInjective(a: seq<bv8>, b: seq<bv8>)
    requires |a| == |b| && MessageBits(a) == MessageBits(b)
    ensures a == b
  {
    forall j | 0 <= j < |a| ensures a[j] == b[j] {
      forall k: nat | k < 8 ensures BitOf(a[j], k) == BitOf(b[j], k) {
        assert MessageBits(a)[8 * j + k] == MessageBits(b)[8 * j + k];
      }
      SameBitsSameOctet(a[j], b[j]);
    }
  }

  /** The register holds an odd number of ones. */
  predicate Parity(x: bv8) {
    (((((((BitOf(x, 0) != BitOf(x, 1)) != BitOf(x, 2)) != BitOf(x, 3))
      != BitOf(x, 4)) != BitOf(x, 5)) != BitOf(x, 6)) != BitOf(x, 7))
  }

  /** The polynomial has an odd number of ones, so a shift keeps the parity. */
  lemma ShiftKeepsParity(x: bv8)
    ensures Parity(Shift(x)) == Parity(x)
  {
  }

  lemma FeedParity(x: bv8, b: bool)
    ensures Parity(Feed(x, b)) == (Parity(x) != b)
  {
    ShiftKeepsParity(x ^ (if b then 1 else 0));
  }

  function Ones(bits: seq<bool>): nat {
    if bits == [] then 0 else Ones(bits[..|bits| - 1]) + (if bits[|bits| - 1] then 1 else 0)
  }

  lemma {:induction false} FeedBitsParity(crc: bv8, bits: seq<bool>)
    ensures Parity(FeedBits(crc, bits)) == (Parity(crc) != (Ones(bits) % 2 == 1))
  {
    if bits != [] {
      var n := |bits| - 1;
      FeedBitsParity(crc, bits[..n]);
      FeedParity(FeedBits(crc, bits[..n]), bits[n]);
    }
  }

  /** The number of positions where two bit strings differ. */
  function Distance(x: seq<bool>, y: seq<bool>): nat
    requires |x| == |y|
  {
    if x == [] then 0
    else Distance(x[..|x| - 1], y[..|y| - 1]) + (if x[|x| - 1] != y[|y| - 1] then 1 else 0)
  }

  lemma {:induction false} DistanceParity(x: seq<bool>, y: seq<bool>)
    requires |x| == |y|
    ensures Distance(x, y) % 2 == (Ones(x) + Ones(y)) % 2
  {
    if x != [] { DistanceParity(x[..|x| - 1], y[..|y| - 1]); }
  }

  /** A packet that passes has an even number of ones. */
  lemma PassingIsEven(a: seq<bv8>)
    requires Passes(a)
    ensures Ones(MessageBits(a)) % 2 == 0
  {
    RegisterIsFeed(START, a);
    FeedBitsParity(START, MessageBits(a));
  }

  /** No odd number of bit errors goes unnoticed. */
  lemma OddErrorsDetected(a: seq<bv8>, b: seq<bv8>)
    requires |a| == |b| && Passes(a)
    requires Distance(MessageBits(a), MessageBits(b)) % 2 == 1
    ensures !Passes(b)
  {
    PassingIsEven(a);
    DistanceParity(MessageBits(a), MessageBits(b));
    if Passes(b) {
      PassingIsEven(b);
    }
  }
}
