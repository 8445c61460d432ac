/** Octets as the link sees them: eight bits, least significant first, and the
    right-shifting byte that collects received bits. */
module Bits {

  /** Bit k of an octet; bit 0 is sent first. */
  predicate BitOf(o: bv8, k: nat)
    requires k < 8
  {
    if k == 0 then o & 0x01 != 0
    else if k == 1 then o & 0x02 != 0
    else if k == 2 then o & 0x04 != 0
    else if k == 3 then o & 0x08 != 0
    else if k == 4 then o & 0x10 != 0
    else if k == 5 then o & 0x20 != 0
    else if k == 6 then o & 0x40 != 0
    else o & 0x80 != 0
  }

  /** All the bits of a message in transmission order. */
  function MessageBits(msg: seq<bv8>): (s: seq<bool>)
    ensures |s| == 8 * |msg|
  {
    seq(8 * |msg|, k requires 0 <= k < 8 * |msg| => BitOf(msg[k / 8], k % 8))
  }

  /** One received bit enters an octet from the top. */
  function ShiftIn(v: bv8, b: bool): bv8 {
    (v >> 1) | (if b then 0x80 else 0)
  }

  lemma ShiftInBits(v: bv8, b: bool, k: nat)
    requires k < 8
    ensures BitOf(ShiftIn(v, b), k) == if k == 7 then b else BitOf(v, k + 1)
  {
  }

  lemma SameBitsSameOctet(x: bv8, y: bv8)
    requires forall k: nat :: k < 8 ==> BitOf(x, k) == BitOf(y, k)
    ensures x == y
  {
    assert BitOf(x, 0) == BitOf(y, 0) && BitOf(x, 1) == BitOf(y, 1);
    assert BitOf(x, 2) == BitOf(y, 2) && BitOf(x, 3) == BitOf(y, 3);
    assert BitOf(x, 4) == BitOf(y, 4) && BitOf(x, 5) == BitOf(y, 5);
    assert BitOf(x, 6) == BitOf(y, 6) && BitOf(x, 7) == BitOf(y, 7);
  }

  /** Writing one bit at bit position `pos` of a receive buffer. */
  function WriteBit(buf: seq<bv8>, pos: nat, b: bool): (r: seq<bv8>)
    requires pos < 8 * |buf|
    ensures |r| == |buf|
  {
    buf[pos / 8 := ShiftIn(buf[pos / 8], b)]
  }

  /** Writing a stream of bits from the start of a receive buffer. */
  function WriteBits(buf: seq<bv8>, bits: seq<bool>): (r: seq<bv8>)
    requires |bits| <= 8 * |buf|
    ensures |r| == |buf|
  {
    if bits == [] then buf
    else WriteBit(WriteBits(buf, bits[..|bits| - 1]), |bits| - 1, bits[|bits| - 1])
  }

  lemma WriteBitsAppend(buf: seq<bv8>, bits: seq<bool>, b: bool)
    requires |bits| < 8 * |buf|
    ensures WriteBits(buf, bits + [b]) == WriteBit(WriteBits(buf, bits), |bits|, b)
  {
    assert (bits + [b])[..|bits|] == bits;
  }

  /** The number of stream bits among the first n that land in octet j. */
  function Landed(n: nat, j: nat): (m: nat)
    ensures m <= 8
  {
    if n <= 8 * j then 0 else if n <= 8 * j + 8 then n - 8 * j else 8
  }

  /** The last bits to land in octet j sit at its top, in order. */
  lemma {:induction false} WriteBitsAt(buf: seq<bv8>, bits: seq<bool>, j: nat, k: nat)
    requires |bits| <= 8 * |buf| && j < |buf|
    requires k < 8 && 8 <= k + Landed(|bits|, j)
    ensures BitOf(WriteBits(buf, bits)[j], k) == bits[8 * j + k + Landed(|bits|, j) - 8]
  {
    var n := |bits| - 1;
    var before := WriteBits(buf, bits[..n]);
    if n / 8 != j {
      WriteBitsAt(buf, bits[..n], j, k);
    } else {
      ShiftInBits(before[j], bits[n], k);
      if k < 7 {
        WriteBitsAt(buf, bits[..n], j, k + 1);
      }
    }
  }

  lemma LandedAll(n: nat, j: nat)
    requires 8 * j + 8 <= n
    ensures Landed(n, j) == 8
  {
  }

  /** All the bits of an octet have landed. */
  lemma WriteBitsFull(buf: seq<bv8>, bits: seq<bool>, j: nat, k: nat)
    requires 8 * j + 8 <= |bits| <= 8 * |buf| && k < 8
    ensures BitOf(WriteBits(buf, bits)[j], k) == bits[8 * j + k]
  {
    LandedAll(|bits|, j);
    WriteBitsAt(buf, bits, j, k);
  }

  lemma PrefixAt<T>(s: seq<T>, t: seq<T>, i: nat)
    requires s <= t && i < |s|
    ensures t[i] == s[i]
  {
  }

  lemma WriteMessageBit(buf: seq<bv8>, bits: seq<bool>, msg: seq<bv8>, j: nat, k: nat)
    requires |bits| <= 8 * |buf| && MessageBits(msg) <= bits && j < |msg| && k < 8
    ensures BitOf(WriteBits(buf, bits)[j], k) == BitOf(msg[j], k)
  {
    MessageBitAt(msg, j, k);
    PrefixAt(MessageBits(msg), bits, 8 * j + k);
    WriteBitsFull(buf, bits, j, k);
  }

  lemma Position(j: nat, k: nat)
    requires k < 8
    ensures (8 * j + k) / 8 == j && (8 * j + k) % 8 == k
  {
  }

  lemma MessageBitAt(msg: seq<bv8>, j: nat, k: nat)
    requires j < |msg| && k < 8
    ensures 8 * j + k < |MessageBits(msg)| && MessageBits(msg)[8 * j + k] == BitOf(msg[j], k)
  {
    Position(j, k);
  }

  lemma WriteMessageOctet(buf: seq<bv8>, bits: seq<bool>, msg: seq<bv8>, j: nat)
    requires |bits| <= 8 * |buf| && MessageBits(msg) <= bits && j < |msg|
    ensures WriteBits(buf, bits)[j] == msg[j]
  {
    var o := WriteBits(buf, bits)[j];
    forall k: nat | k < 8 ensures BitOf(o, k) == BitOf(msg[j], k) {
      WriteMessageBit(buf, bits, msg, j, k);
    }
    SameBitsSameOctet(o, msg[j]);
  }

  /** Writing the bits of a message, and then any others, restores its octets
      whatever the buffer held before. */
  lemma WriteMessage(buf: seq<bv8>, bits: seq<bool>, msg: seq<bv8>)
    requires |bits| <= 8 * |buf| && MessageBits(msg) <= bits
    ensures msg <= WriteBits(buf, bits)
  {
    forall j | 0 <= j < |msg| ensures WriteBits(buf, bits)[j] == msg[j] {
      WriteMessageOctet(buf, bits, msg, j);
    }
  }
}
