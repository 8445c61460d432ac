/** Demodulation inverts the framing, with every edge up to two samples early or
    late, and never goes back on a bit when more edges arrive. */
module Decoding {
  import opened Bits
  import opened Framing
  import opened Demodulator

  const JITTER := 2

  /** The receiver's line: high before the first of n groups, with at most one
      more period after them, which may or may not start with an edge. */
  ghost predicate Line(levels: seq<bool>, n: nat) {
    && 1 <= n <= MAX_MSG_LEN
    && GROUP * n <= |levels| <= GROUP * n + 1
    && Grouped(true, levels, n)
  }

  /** A recorded time is the start of period p, up to the jitter. */
  predicate Near(time: uint16, base: int, p: nat) {
    -JITTER <= time - (base + OVERSAMPLES * p) <= JITTER
  }

  /** Entry i + 1 of the recorder is edge i of the line, up to the jitter. Entry
      0 is the rise of the line before the message. */
  ghost predicate Timed(times: seq<uint16>, levels: seq<bool>, base: int) {
    var e := Edges(true, levels);
    && |times| == |e| + 1
    && forall i :: 0 <= i < |e| ==> Near(times[i + 1], base, e[i])
  }

  /** What the demodulator knows after entry i, which marks the edge at the start
      of period p: every data bit before that edge. */
  ghost predicate Decoded(d: Demod, levels: seq<bool>, base: int, p: nat, i: nat)
    requires p <= |levels|
  {
    && !d.ended && !d.ignoreBits
    && d.level == Before(true, levels, p)
    && d.bits == DataBits(levels, p)
    && Near(d.stopStart, base, p - p % GROUP)
    && d.ignoreIdx <= i + 1
    && (d.ignoreIdx == i + 1 <==> p % GROUP == 0)
  }

  lemma EdgeBounds(levels: seq<bool>, i: nat)
    requires i < |Edges(true, levels)|
    ensures Edges(true, levels)[i] < |levels|
    ensures i + 1 < |Edges(true, levels)| ==> Edges(true, levels)[i] < Edges(true, levels)[i + 1]
  {
    EdgesBelowSound(true, levels, |levels|);
  }

  lemma FirstEdge(levels: seq<bool>, n: nat)
    requires Line(levels, n)
    ensures |Edges(true, levels)| > 0 && Edges(true, levels)[0] == 0
  {
    EdgesBelowSound(true, levels, |levels|);
    assert IsEdge(true, levels, GROUP * 0);
    assert 0 in Edges(true, levels);
  }

  /** The end of the constant stretch that starts with edge i. */
  function StretchEnd(levels: seq<bool>, i: nat): nat
    requires i < |Edges(true, levels)|
  {
    if i + 1 < |Edges(true, levels)| then Edges(true, levels)[i + 1] else |levels|
  }

  /** Forced transitions keep the next edge within nine periods of the group start. */
  lemma NextEdgeIsNear(levels: seq<bool>, n: nat, i: nat)
    requires Line(levels, n) && i + 1 < |Edges(true, levels)|
    ensures var p, q := Edges(true, levels)[i], Edges(true, levels)[i + 1];
      p < q <= p - p % GROUP + GROUP && q <= GROUP * n
  {
    var p, q := Edges(true, levels)[i], Edges(true, levels)[i + 1];
    var next := p - p % GROUP + GROUP;
    EdgeBounds(levels, i);
    EdgeBounds(levels, i + 1);
    if next < q {
      assert next == GROUP * (p / GROUP + 1) && p / GROUP + 1 < n;
      assert IsEdge(true, levels, GROUP * (p / GROUP + 1));
      NoEdgeBetween(true, levels, i, next);
      assert false;
    }
  }

  /** The last edge lies in the last group, or right after it. */
  lemma LastEdgeIsLate(levels: seq<bool>, n: nat)
    requires Line(levels, n)
    ensures var e := Edges(true, levels);
      |e| > 0 && GROUP * (n - 1) <= e[|e| - 1] <= GROUP * n
  {
    EdgesBelowSound(true, levels, |levels|);
    assert IsEdge(true, levels, GROUP * (n - 1));
  }

  /** The level holds from one edge to the next. */
  lemma {:induction false} Constant(levels: seq<bool>, i: nat, q: nat)
    requires i < |Edges(true, levels)|
    requires Edges(true, levels)[i] <= q < StretchEnd(levels, i) <= |levels|
    ensures levels[q] == !Before(true, levels, Edges(true, levels)[i])
  {
    var p := Edges(true, levels)[i];
    if q == p {
      EdgesBelowSound(true, levels, |levels|);
    } else {
      NoEdgeBetween(true, levels, i, q);
      Constant(levels, i, q - 1);
    }
  }

  /** Periods p to q - 1 lie in one group and hold one level, the opposite of the
      level before them. */
  ghost predicate Stretch(levels: seq<bool>, p: nat, q: nat) {
    && p < q <= |levels| && q <= p - p % GROUP + GROUP
    && forall k :: p <= k < q ==> levels[k] == !Before(true, levels, p)
  }

  /** How many of the periods p to q - 1 carry data. */
  function DataIn(p: nat, q: nat): (n: nat)
    requires p < q
  {
    q - p - (if p % GROUP == 0 then 1 else 0)
  }

  lemma {:induction false} DataBitsOfStretch(levels: seq<bool>, p: nat, q: nat)
    requires Stretch(levels, p, q)
    ensures DataBits(levels, q) == DataBits(levels, p) + Repeat(!Before(true, levels, p), DataIn(p, q))
    decreases q
  {
    if q > p + 1 {
      DataBitsOfStretch(levels, p, q - 1);
      assert (q - 1) % GROUP != 0;
    }
  }

  lemma EdgeStretch(levels: seq<bool>, n: nat, i: nat, q: nat)
    requires Line(levels, n) && i < |Edges(true, levels)|
    requires Edges(true, levels)[i] < q <= StretchEnd(levels, i) && q <= GROUP * n
    ensures Stretch(levels, Edges(true, levels)[i], q)
  {
    var p := Edges(true, levels)[i];
    EdgeBounds(levels, i);
    if i + 1 < |Edges(true, levels)| {
      NextEdgeIsNear(levels, n, i);
      EdgeBounds(levels, i + 1);
    } else {
      LastEdgeIsLate(levels, n);
    }
    forall k | p <= k < q ensures levels[k] == !Before(true, levels, p) {
      Constant(levels, i, k);
    }
  }

  /** Rounding recovers the number of periods between two jittered edges. */
  lemma Rounding(a: uint16, b: uint16, base: int, p: nat, q: nat)
    requires p < q < 1000
    requires Near(b, base, p) && Near(a, base, q)
    ensures Periods(a, b) == q - p
  {
  }

  /** How much error rounding absorbs, exactly: from five samples short to four
      samples long. Two samples either way is the largest symmetric jitter per edge
      that stays within it. */
  lemma RoundingIsExact(a: uint16, b: uint16, n: nat, err: int)
    requires a - b == OVERSAMPLES * n + err && b <= a
    ensures Periods(a, b) == n <==> -5 <= err <= 4
  {
  }

  lemma GroupEnds(p: nat, q: nat)
    requires p < q <= p - p % GROUP + GROUP
    ensures q % GROUP == 0 <==> q - (p - p % GROUP) == GROUP
    ensures p - p % GROUP < q
    ensures q % GROUP != 0 ==> q - q % GROUP == p - p % GROUP
  {
  }

  lemma DecodeNext(d: Demod, times: seq<uint16>, p: nat, q: nat, i: nat)
    requires 1 <= i < |times| - 1 && p < q && !d.ignoreBits
    requires Periods(times[i + 1], times[i]) == q - p
    requires Periods(times[i + 1], d.stopStart) == GROUP <==> q % GROUP == 0
    requires d.ignoreIdx <= i + 1 && (d.ignoreIdx == i + 1 <==> p % GROUP == 0)
    ensures Decode(d, times, i + 1) ==
      (d.(stopStart := if q % GROUP == 0 then times[i + 1] else d.stopStart,
          ignoreIdx := if q % GROUP == 0 then i + 2 else d.ignoreIdx,
          level := !d.level),
       DataIn(p, q))
  {
    var n := Periods(times[i + 1], times[i]);
    assert n == q - p > 0;
    var g := Regroup(d, times, i + 1);
    if q % GROUP == 0 {
      assert g == d.(stopStart := times[i + 1], ignoreBits := i + 1 == d.ignoreIdx, ignoreIdx := i + 2);
    } else {
      assert g == d;
    }
  }

  lemma RoundedNext(d: Demod, times: seq<uint16>, base: int, p: nat, q: nat, i: nat)
    requires 1 <= i < |times| - 1 && Near(times[i], base, p) && Near(times[i + 1], base, q)
    requires p < q <= p - p % GROUP + GROUP && q < 1000
    requires Near(d.stopStart, base, p - p % GROUP)
    ensures Periods(times[i + 1], times[i]) == q - p
    ensures Periods(times[i + 1], d.stopStart) == GROUP <==> q % GROUP == 0
  {
    GroupEnds(p, q);
    Rounding(times[i + 1], times[i], base, p, q);
    Rounding(times[i + 1], d.stopStart, base, p - p % GROUP, q);
  }

  lemma EmitStretch(d: Demod, levels: seq<bool>, p: nat, q: nat)
    requires Stretch(levels, p, q) && |DataBits(levels, q)| <= MAX_BITS
    requires !d.ended && d.level == !Before(true, levels, p) && d.bits == DataBits(levels, p)
    requires |d.bits| <= MAX_BITS
    ensures d.level == Before(true, levels, q)
    ensures Emit(d, DataIn(p, q)) == d.(bits := DataBits(levels, q))
  {
    DataBitsOfStretch(levels, p, q);
    assert levels[q - 1] == !Before(true, levels, p);
  }

  lemma DecodedNext(d: Demod, times: seq<uint16>, levels: seq<bool>, base: int, p: nat, q: nat, i: nat)
    requires 1 <= i < |times| - 1 && Near(times[i], base, p) && Near(times[i + 1], base, q)
    requires q < 1000 && Stretch(levels, p, q) && Decoded(d, levels, base, p, i)
    requires |d.bits| <= MAX_BITS && |DataBits(levels, q)| <= MAX_BITS
    ensures Decoded(OnEdge(d, times, i + 1), levels, base, q, i + 1)
  {
    RoundedNext(d, times, base, p, q, i);
    DecodeNext(d, times, p, q, i);
    var g := Decode(d, times, i + 1).0;
    EmitStretch(g, levels, p, q);
    GroupStart(g, d, times[i + 1], base, p, q, i);
    assert OnEdge(d, times, i + 1) == g.(bits := DataBits(levels, q));
  }

  /** The time of the last forced transition, and the edge after it, after edge i + 1. */
  lemma GroupStart(g: Demod, d: Demod, time: uint16, base: int, p: nat, q: nat, i: nat)
    requires p < q <= p - p % GROUP + GROUP && Near(time, base, q) && Near(d.stopStart, base, p - p % GROUP)
    requires d.ignoreIdx <= i + 1
    requires g.stopStart == (if q % GROUP == 0 then time else d.stopStart)
    requires g.ignoreIdx == (if q % GROUP == 0 then i + 2 else d.ignoreIdx)
    ensures Near(g.stopStart, base, q - q % GROUP)
    ensures g.ignoreIdx <= i + 2 && (g.ignoreIdx == i + 2 <==> q % GROUP == 0)
  {
    GroupEnds(p, q);
  }

  lemma DataFits(levels: seq<bool>, n: nat, p: nat)
    requires Line(levels, n) && p <= GROUP * n
    ensures |DataBits(levels, p)| <= MAX_BITS
  {
    DataBitsCount(levels, p);
    DataCountBound(p, n);
  }

  /** After any prefix of the recorded edges the demodulator has every data bit
      before the last of them. */
  lemma {:induction false} DecodedPrefix(times: seq<uint16>, levels: seq<bool>, base: int, n: nat, i: nat)
    requires Line(levels, n) && Timed(times, levels, base)
    requires 1 <= i <= |Edges(true, levels)|
    ensures Edges(true, levels)[i - 1] <= GROUP * n
    ensures Decoded(OnEdges(Demod(times[1], 2, false, true, [], false), times, 2, i + 1),
                    levels, base, Edges(true, levels)[i - 1], i)
  {
    FirstEdge(levels, n);
    if i > 1 {
      var p, q := Edges(true, levels)[i - 2], Edges(true, levels)[i - 1];
      DecodedPrefix(times, levels, base, n, i - 1);
      NextEdgeIsNear(levels, n, i - 2);
      EdgeStretch(levels, n, i - 2, q);
      DataFits(levels, n, q);
      DecodedNext(OnEdges(Demod(times[1], 2, false, true, [], false), times, 2, i),
                  times, levels, base, p, q, i - 1);
    }
  }

  /** What is certain after `count` entries: everything before the first edge that
      is not recorded yet, or the whole message. */
  function Known(levels: seq<bool>, n: nat, count: nat): nat
    requires 1 <= count <= |Edges(true, levels)| + 1
  {
    if count <= |Edges(true, levels)| then Edges(true, levels)[count - 1] else GROUP * n
  }

  /** Tail fill gives the level that holds from the last edge seen up to the
      next one, or up to the end of the message. */
  lemma FilledBits(times: seq<uint16>, levels: seq<bool>, base: int, n: nat, count: nat)
    requires Line(levels, n) && Timed(times, levels, base)
    requires 2 <= count <= |times|
    ensures Known(levels, n, count) <= |levels|
    ensures DataBits(levels, Known(levels, n, count)) <= Demodulate(times, count, 2, times[1], 2)
    ensures |Demodulate(times, count, 2, times[1], 2)| == MAX_BITS
  {
    var i := count - 1;
    var p, q := Edges(true, levels)[i - 1], Known(levels, n, count);
    DecodedPrefix(times, levels, base, n, i);
    LastStretch(levels, n, count);
    FilledStretch(OnEdges(Demod(times[1], 2, false, true, [], false), times, 2, count), levels, base, p, q, i);
  }

  /** The line holds its level from the last edge seen up to what is known. */
  lemma LastStretch(levels: seq<bool>, n: nat, count: nat)
    requires Line(levels, n) && 2 <= count <= |Edges(true, levels)| + 1
    requires Edges(true, levels)[count - 2] <= GROUP * n
    ensures var p, q := Edges(true, levels)[count - 2], Known(levels, n, count);
      p <= q <= |levels| && (p < q ==> Stretch(levels, p, q)) && |DataBits(levels, q)| <= MAX_BITS
  {
    var p, q := Edges(true, levels)[count - 2], Known(levels, n, count);
    if count <= |Edges(true, levels)| {
      NextEdgeIsNear(levels, n, count - 2);
    }
    DataFits(levels, n, q);
    if p < q { EdgeStretch(levels, n, count - 2, q); }
  }

  lemma FilledStretch(d: Demod, levels: seq<bool>, base: int, p: nat, q: nat, i: nat)
    requires p <= q <= |levels| && (p < q ==> Stretch(levels, p, q))
    requires Decoded(d, levels, base, p, i)
    requires |d.bits| <= MAX_BITS && |DataBits(levels, q)| <= MAX_BITS
    ensures DataBits(levels, q) <= FillTail(d) && |FillTail(d)| == MAX_BITS
  {
    if p < q {
      DataBitsOfStretch(levels, p, q);
    }
  }
}
