/** The demodulator of the charger-case link: it rebuilds octets from edge times
    alone, by rounding the time between edges to whole bit periods, dropping the
    forced transition of every group and filling the tail of the buffer. */
module Demodulator {
  import opened Bits
  import opened Framing

  const OVERSAMPLES := 10
  const MAX_MSG_LEN := 16
  const MAX_BITS := 8 * MAX_MSG_LEN

  type uint16 = x: int | 0 <= x < 0x1_0000

  /** The variables of the loop over edges. `bits` is what has been written so
      far and `ended` marks an early return. */
  datatype Demod = Demod(stopStart: uint16, ignoreIdx: nat, ignoreBits: bool,
                         level: bool, bits: seq<bool>, ended: bool)

  /** The time between two samples, rounded to the nearest bit period. */
  function Periods(a: uint16, b: uint16): (n: nat) {
    ((if a < b then b - a else a - b) + OVERSAMPLES / 2) / OVERSAMPLES % 0x1_0000
  }

  function Repeat(b: bool, n: nat): (s: seq<bool>)
    ensures |s| == n && forall k :: 0 <= k < n ==> s[k] == b
  {
    seq(n, _ => b)
  }

  /** A whole group has passed since the last forced transition. */
  function Regroup(d: Demod, times: seq<uint16>, i: nat): (r: Demod)
    requires i < |times|
  {
    if Periods(times[i], d.stopStart) == GROUP then
      d.(stopStart := times[i], ignoreBits := i == d.ignoreIdx, ignoreIdx := i + 1)
    else d
  }

  /** What edge i does to the loop variables, and how many bits it completes. */
  function Decode(d: Demod, times: seq<uint16>, i: nat): (r: (Demod, nat))
    requires 1 <= i < |times|
    ensures r.0.bits == d.bits && r.0.ended == d.ended
  {
    var g := Regroup(d, times, i).(level := !d.level);
    var n := Periods(times[i], times[i - 1]);
    if n > 0 && (i == g.ignoreIdx || g.ignoreBits) then (g.(ignoreBits := false), n - 1) else (g, n)
  }

  function Emit(d: Demod, n: nat): (r: Demod)
    requires |d.bits| <= MAX_BITS
    ensures |r.bits| <= MAX_BITS
  {
    if n > GROUP - 1 then d.(ended := true)
    else if |d.bits| + n <= MAX_BITS then d.(bits := d.bits + Repeat(d.level, n))
    else d.(bits := d.bits + Repeat(d.level, MAX_BITS - |d.bits|), ended := true)
  }

  /** The effect of edge i. */
  function OnEdge(d: Demod, times: seq<uint16>, i: nat): (r: Demod)
    requires 1 <= i < |times| && |d.bits| <= MAX_BITS
    ensures |r.bits| <= MAX_BITS
  {
    Emit(Decode(d, times, i).0, Decode(d, times, i).1)
  }

  function OnEdges(d: Demod, times: seq<uint16>, lo: nat, hi: nat): (r: Demod)
    requires 1 <= lo && hi <= |times| && |d.bits| <= MAX_BITS
    ensures |r.bits| <= MAX_BITS
  {
    if hi <= lo then d
    else
      var p := OnEdges(d, times, lo, hi - 1);
      if p.ended then p else OnEdge(p, times, hi - 1)
  }

  /** After the last edge the rest of the buffer takes the opposite level. */
  function FillTail(d: Demod): (bits: seq<bool>)
    requires |d.bits| <= MAX_BITS
    ensures |bits| <= MAX_BITS
  {
    if d.ended then d.bits else d.bits + Repeat(!d.level, MAX_BITS - |d.bits|)
  }

  /** The bits the demodulator writes into its buffer. */
  function Demodulate(times: seq<uint16>, count: nat, start: nat, stopStart: uint16, ignoreIdx: nat): (bits: seq<bool>)
    requires 1 <= start && count <= |times|
    ensures |bits| <= MAX_BITS
  {
    FillTail(OnEdges(Demod(stopStart, ignoreIdx, false, true, [], false), times, start, count))
  }

  lemma RepeatMore(bits: seq<bool>, level: bool, n: nat)
    ensures bits + Repeat(level, n + 1) == (bits + Repeat(level, n)) + [level]
  {
    assert Repeat(level, n + 1) == Repeat(level, n) + [level];
  }

  /** Writes one bit after the stream `bits`. */
  method WriteLevel(level: bool, buf: array<bv8>, pos: nat, ghost was: seq<bv8>, ghost bits: seq<bool>)
    requires buf.Length == |was| == MAX_MSG_LEN && pos == |bits| < MAX_BITS
    requires buf[..] == WriteBits(was, bits)
    modifies buf
    ensures buf[..] == WriteBits(was, bits + [level])
  {
    WriteBitsAppend(was, bits, level);
    buf[pos / 8] := ShiftIn(buf[pos / 8], level);
  }

  /** Writes `n` copies of a level after the stream `bits`, or stops when the
      buffer is full. */
  method WriteLevels(level: bool, n: nat, buf: array<bv8>, pos: nat, ghost was: seq<bv8>, ghost bits: seq<bool>)
    returns (newPos: nat, full: bool)
    requires buf.Length == |was| == MAX_MSG_LEN && pos == |bits| <= MAX_BITS
    requires buf[..] == WriteBits(was, bits)
    modifies buf
    ensures full <==> MAX_BITS < pos + n
    ensures newPos == if full then MAX_BITS else pos + n
    ensures buf[..] == WriteBits(was, bits + Repeat(level, newPos - pos))
  {
    newPos := pos;
    full := false;
    assert bits + Repeat(level, 0) == bits;
    for j := 0 to n
      invariant newPos == pos + j <= MAX_BITS
      invariant buf[..] == WriteBits(was, bits + Repeat(level, j))
    {
      if newPos == MAX_BITS {
        full := true;
        return;
      }
      RepeatMore(bits, level, j);
      WriteLevel(level, buf, newPos, was, bits + Repeat(level, j));
      newPos := newPos + 1;
    }
  }

  /** The first half of the loop body: which bits does edge i complete? */
  method DecodeEdge(times: seq<uint16>, i: nat, stopStart0: uint16, ignoreIdx0: nat,
                    ignoreBits0: bool, level0: bool, ghost bits: seq<bool>)
    returns (stopStart: uint16, ignoreIdx: nat, ignoreBits: bool, level: bool, n: nat)
    requires 1 <= i < |times|
    ensures Decode(Demod(stopStart0, ignoreIdx0, ignoreBits0, level0, bits, false), times, i)
         == (Demod(stopStart, ignoreIdx, ignoreBits, level, bits, false), n)
  {
    stopStart, ignoreIdx, ignoreBits := stopStart0, ignoreIdx0, ignoreBits0;
    n := Periods(times[i], stopStart);
    if n == GROUP {
      stopStart := times[i];
      ignoreBits := i == ignoreIdx;
      ignoreIdx := i + 1;
    }
    n := Periods(times[i], times[i - 1]);
    level := !level0;
    if n == 0 {
      return;
    }
    if i == ignoreIdx || ignoreBits {
      n := n - 1;
      ignoreBits := false;
    }
  }

  /** The second half: write the completed bits, unless the edge ends the loop. */
  method WriteEdge(level: bool, n: nat, buf: array<bv8>, pos: nat, ghost was: seq<bv8>, ghost d: Demod)
    returns (newPos: nat, ended: bool)
    requires buf.Length == |was| == MAX_MSG_LEN && pos == |d.bits| <= MAX_BITS
    requires level == d.level && !d.ended && buf[..] == WriteBits(was, d.bits)
    modifies buf
    ensures ended == Emit(d, n).ended && newPos == |Emit(d, n).bits|
    ensures buf[..] == WriteBits(was, Emit(d, n).bits)
  {
    if n > GROUP - 1 {
      return pos, true;
    }
    newPos, ended := WriteLevels(level, n, buf, pos, was, d.bits);
  }

  /** The loop body for edge i, from the loop variables of d to those after the edge. */
  method ProcessEdge(times: seq<uint16>, i: nat, stopStart0: uint16, ignoreIdx0: nat, ignoreBits0: bool,
                     level0: bool, buf: array<bv8>, pos: nat, ghost was: seq<bv8>, ghost d: Demod)
    returns (stopStart: uint16, ignoreIdx: nat, ignoreBits: bool, level: bool, newPos: nat, ended: bool)
    requires 1 <= i < |times| && buf.Length == |was| == MAX_MSG_LEN && pos == |d.bits| <= MAX_BITS
    requires d == Demod(stopStart0, ignoreIdx0, ignoreBits0, level0, d.bits, false)
    requires buf[..] == WriteBits(was, d.bits)
    modifies buf
    ensures var e := OnEdge(d, times, i);
      && e == Demod(stopStart, ignoreIdx, ignoreBits, level, e.bits, ended)
      && newPos == |e.bits| && buf[..] == WriteBits(was, e.bits)
  {
    var n;
    stopStart, ignoreIdx, ignoreBits, level, n :=
      DecodeEdge(times, i, stopStart0, ignoreIdx0, ignoreBits0, level0, d.bits);
    newPos, ended := WriteEdge(level, n, buf, pos, was, Decode(d, times, i).0);
  }

  /** After the loop: the rest of the buffer takes the opposite level. */
  method WriteTail(level: bool, buf: array<bv8>, pos: nat, ghost was: seq<bv8>, ghost d: Demod) returns (newPos: nat)
    requires buf.Length == |was| == MAX_MSG_LEN && pos == |d.bits| <= MAX_BITS
    requires level == d.level && !d.ended && buf[..] == WriteBits(was, d.bits)
    modifies buf
    ensures newPos == |FillTail(d)| && buf[..] == WriteBits(was, FillTail(d))
  {
    var full;
    newPos, full := WriteLevels(!level, MAX_BITS - pos, buf, pos, was, d.bits);
  }

  /** The loop variables and the buffer are those of d. */
  predicate Holds(buf: seq<bv8>, was: seq<bv8>, pos: nat, d: Demod)
  {
    pos == |d.bits| <= MAX_BITS && |was| == MAX_MSG_LEN && buf == WriteBits(was, d.bits)
  }

  /** The loop over the edges. */
  method ProcessEdges(times: seq<uint16>, count: nat, start: nat, stopStart0: uint16, ignoreIdx0: nat, buf: array<bv8>,
                      ghost was: seq<bv8>)
    returns (level: bool, pos: nat, ended: bool, ghost d: Demod)
    requires buf.Length == MAX_MSG_LEN && buf[..] == was
    requires 1 <= start <= |times| && count <= |times|
    modifies buf
    ensures d == OnEdges(Demod(stopStart0, ignoreIdx0, false, true, [], false), times, start, count)
    ensures d.ended == ended && (!ended ==> level == d.level) && Holds(buf[..], was, pos, d)
  {
    var stopStart: uint16, ignoreIdx: nat := stopStart0, ignoreIdx0;
    var ignoreBits;
    ignoreBits, level, ended, pos := false, true, false, 0;
    ghost var d0 := Demod(stopStart, ignoreIdx, ignoreBits, level, [], false);
    d := d0;
    var i := start;
    while i < count
      invariant start <= i <= |times| && (i <= count || i == start)
      invariant d == OnEdges(d0, times, start, i) && !ended
      invariant d == Demod(stopStart, ignoreIdx, ignoreBits, level, d.bits, false)
      invariant Holds(buf[..], was, pos, d)
    {
      stopStart, ignoreIdx, ignoreBits, level, pos, ended :=
        ProcessEdge(times, i, stopStart, ignoreIdx, ignoreBits, level, buf, pos, was, d);
      NextEdge(d0, times, start, i);
      d := OnEdge(d, times, i);
      i := i + 1;
      if ended {
        EndedStays(d0, times, start, i, count);
        return;
      }
    }
  }

  /** Demodulates edges `start` to `count - 1` into the buffer, given the time of
      the first forced transition and the edge after it. */
  method ProcessBits(times: seq<uint16>, count: nat, start: nat, stopStart0: uint16,
                     ignoreIdx0: nat, buf: array<bv8>) returns (bitPos: nat)
    requires buf.Length == MAX_MSG_LEN
    requires 1 <= start <= |times| && count <= |times|
    modifies buf
    ensures var bits := Demodulate(times, count, start, stopStart0, ignoreIdx0);
      bitPos == |bits| && buf[..] == WriteBits(old(buf[..]), bits)
  {
    ghost var was := buf[..];
    var level, ended;
    ghost var d;
    level, bitPos, ended, d := ProcessEdges(times, count, start, stopStart0, ignoreIdx0, buf, was);
    if !ended {
      bitPos := WriteTail(level, buf, bitPos, was, d);
    }
  }

  lemma NextEdge(d: Demod, times: seq<uint16>, lo: nat, i: nat)
    requires 1 <= lo <= i < |times| && |d.bits| <= MAX_BITS && !OnEdges(d, times, lo, i).ended
    ensures OnEdges(d, times, lo, i + 1) == OnEdge(OnEdges(d, times, lo, i), times, i)
  {
  }

  lemma {:induction false} EndedStays(d: Demod, times: seq<uint16>, lo: nat, mid: nat, hi: nat)
    requires 1 <= lo <= mid <= hi <= |times| && |d.bits| <= MAX_BITS
    requires OnEdges(d, times, lo, mid).ended
    ensures OnEdges(d, times, lo, hi) == OnEdges(d, times, lo, mid)
  {
    if mid < hi { EndedStays(d, times, lo, mid, hi - 1); }
  }

  /** An edge completes at most eight bits. More than nine periods without an edge cannot come
      from the framing: there the demodulation ends, with what it has written before. */
  lemma LongGapEnds(d: Demod, times: seq<uint16>, i: nat)
    requires 1 <= i < |times| && |d.bits| <= MAX_BITS && !d.ended
    ensures |OnEdge(d, times, i).bits| <= |d.bits| + 8
    ensures Periods(times[i], times[i - 1]) > 9 ==> OnEdge(d, times, i).ended && OnEdge(d, times, i).bits == d.bits
  {
  }

  /** So nothing that is recorded after such a gap can change the octets. */
  lemma LongGapCutsOff(d: Demod, times: seq<uint16>, lo: nat, k: nat, hi: nat)
    requires 1 <= lo <= k < hi <= |times| && |d.bits| <= MAX_BITS && Periods(times[k], times[k - 1]) > 9
    ensures FillTail(OnEdges(d, times, lo, hi)) ==
      if OnEdges(d, times, lo, k).ended then FillTail(OnEdges(d, times, lo, k)) else OnEdges(d, times, lo, k).bits
  {
    var e := OnEdges(d, times, lo, k);
    if e.ended {
      EndedStays(d, times, lo, k, hi);
    } else {
      NextEdge(d, times, lo, k);
      LongGapEnds(e, times, k);
      EndedStays(d, times, lo, k + 1, hi);
    }
  }
}
