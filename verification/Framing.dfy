/** The line code of the charger-case link. Every octet becomes a group of nine
    bit periods: a forced transition, then the eight bits of the octet. */
module Framing {
  import opened Bits

  const GROUP := 9

  /** The level of a line during period p, where period -1 is the level the line
      holds before the first group. */
  predicate LevelAt(initial: bool, msg: seq<bv8>, p: int)
    requires -1 <= p < GROUP * |msg|
    decreases p
  {
    if p == -1 then initial
    else if p % GROUP == 0 then !LevelAt(initial, msg, p - 1)
    else BitOf(msg[p / GROUP], p % GROUP - 1)
  }

  /** The levels of a whole message. */
  function Framed(initial: bool, msg: seq<bv8>): (levels: seq<bool>)
    ensures |levels| == GROUP * |msg|
    ensures forall p: nat :: p < |levels| ==> levels[p] == LevelAt(initial, msg, p)
  {
    seq(GROUP * |msg|, p requires 0 <= p < GROUP * |msg| => LevelAt(initial, msg, p))
  }

  /** The level just before period p. */
  predicate Before(initial: bool, levels: seq<bool>, p: nat)
    requires p <= |levels|
  {
    if p == 0 then initial else levels[p - 1]
  }

  /** Period p starts with an edge. */
  predicate IsEdge(initial: bool, levels: seq<bool>, p: nat)
    requires p < |levels|
  {
    levels[p] != Before(initial, levels, p)
  }

  /** The first n groups of a line each begin with an edge. */
  ghost predicate Grouped(initial: bool, levels: seq<bool>, n: nat) {
    && GROUP * n <= |levels|
    && forall k: nat :: k < n ==> IsEdge(initial, levels, GROUP * k)
  }

  lemma FramedIsGrouped(initial: bool, msg: seq<bv8>, rest: seq<bool>)
    ensures Grouped(initial, Framed(initial, msg) + rest, |msg|)
  {
    var levels := Framed(initial, msg) + rest;
    forall k: nat | k < |msg| ensures IsEdge(initial, levels, GROUP * k) {
      assert LevelAt(initial, msg, GROUP * k) == !LevelAt(initial, msg, GROUP * k - 1);
    }
  }

  /** The levels of the periods below p that carry data. */
  function DataBits(levels: seq<bool>, p: nat): (s: seq<bool>)
    requires p <= |levels|
  {
    if p == 0 then []
    else DataBits(levels, p - 1) + (if (p - 1) % GROUP == 0 then [] else [levels[p - 1]])
  }

  /** The number of data periods below p. */
  function DataCount(p: nat): (n: nat)
  {
    p - (p + 8) / 9
  }

  lemma {:induction false} DataBitsCount(levels: seq<bool>, p: nat)
    requires p <= |levels|
    ensures |DataBits(levels, p)| == DataCount(p)
  {
    if p > 0 { DataBitsCount(levels, p - 1); }
  }

  lemma DataCountStep(q: nat)
    ensures DataCount(q + 1) == DataCount(q) + (if q % GROUP == 0 then 0 else 1)
  {
  }

  lemma DataCountBound(p: nat, n: nat)
    requires p <= GROUP * n
    ensures DataCount(p) <= 8 * n
  {
  }

  lemma {:induction false} DataBitsAre(levels: seq<bool>, data: seq<bool>, p: nat)
    requires p <= |levels| && DataCount(p) <= |data|
    requires forall q: nat :: q < p && q % GROUP != 0 ==>
               DataCount(q) < |data| && levels[q] == data[DataCount(q)]
    ensures DataBits(levels, p) == data[..DataCount(p)]
  {
    if p > 0 {
      DataCountStep(p - 1);
      DataBitsAre(levels, data, p - 1);
      if (p - 1) % GROUP != 0 {
        assert levels[p - 1] == data[DataCount(p - 1)];
      }
    }
  }

  lemma DataPeriod(initial: bool, msg: seq<bv8>, q: nat)
    requires q < GROUP * |msg| && q % GROUP != 0
    ensures DataCount(q) < 8 * |msg|
    ensures LevelAt(initial, msg, q) == MessageBits(msg)[DataCount(q)]
  {
    assert DataCount(q) == 8 * (q / GROUP) + (q % GROUP - 1);
  }

  /** Dropping the forced transitions inverts the framing. */
  lemma DataBitsOfFramed(initial: bool, msg: seq<bv8>, rest: seq<bool>, p: nat)
    requires p <= GROUP * |msg|
    ensures DataCount(p) <= 8 * |msg|
    ensures DataBits(Framed(initial, msg) + rest, p) == MessageBits(msg)[..DataCount(p)]
  {
    DataCountBound(p, |msg|);
    forall q: nat | q < p && q % GROUP != 0
      ensures DataCount(q) < 8 * |msg|
      ensures (Framed(initial, msg) + rest)[q] == MessageBits(msg)[DataCount(q)]
    {
      DataPeriod(initial, msg, q);
    }
    DataBitsAre(Framed(initial, msg) + rest, MessageBits(msg), p);
  }

  /** The periods of the edges below period p, in increasing order. */
  function EdgesBelow(initial: bool, levels: seq<bool>, p: nat): (e: seq<nat>)
    requires p <= |levels|
  {
    if p == 0 then []
    else EdgesBelow(initial, levels, p - 1) + (if IsEdge(initial, levels, p - 1) then [p - 1] else [])
  }

  /** The periods of all the edges of a line. */
  function Edges(initial: bool, levels: seq<bool>): seq<nat> {
    EdgesBelow(initial, levels, |levels|)
  }

  ghost predicate Increasing(e: seq<nat>) {
    forall i, j :: 0 <= i < j < |e| ==> e[i] < e[j]
  }

  /** The edge list is strictly increasing and lists exactly the edges. */
  lemma {:induction false} EdgesBelowSound(initial: bool, levels: seq<bool>, p: nat)
    requires p <= |levels|
    ensures var e := EdgesBelow(initial, levels, p);
      && Increasing(e)
      && (forall i :: 0 <= i < |e| ==> e[i] < p && IsEdge(initial, levels, e[i]))
      && (forall q: nat :: q < p && IsEdge(initial, levels, q) ==> q in e)
  {
    if p > 0 { EdgesBelowSound(initial, levels, p - 1); }
  }

  /** No edge hides between two neighbours of the list, or after its last. */
  lemma NoEdgeBetween(initial: bool, levels: seq<bool>, i: nat, q: nat)
    requires i < |Edges(initial, levels)|
    requires var e := Edges(initial, levels);
      e[i] < q < (if i + 1 < |e| then e[i + 1] else |levels|) <= |levels|
    ensures !IsEdge(initial, levels, q)
  {
    EdgesBelowSound(initial, levels, |levels|);
  }
}
