/** End-to-end results about reception: what a channel fetches is what was framed. */
module Reception {
  import opened Bits
  import opened Framing
  import opened Demodulator
  import opened EdgeRecorder
  import opened Decoding

  /** The line of a message that starts from high, with or without one more period
      after it. */
  function MessageLine(msg: seq<bv8>, idle: seq<bool>): seq<bool> {
    Framed(true, msg) + idle
  }

  lemma MessageLineIsLine(msg: seq<bv8>, idle: seq<bool>)
    requires 1 <= |msg| <= MAX_MSG_LEN && |idle| <= 1
    ensures Line(MessageLine(msg, idle), |msg|)
  {
    FramedIsGrouped(true, msg, idle);
  }

  /** Only recorded entries matter. */
  lemma {:induction false} OnEdgesLocal(d: Demod, a: seq<uint16>, b: seq<uint16>, hi: nat)
    requires hi <= |a| && a <= b && |d.bits| <= MAX_BITS
    ensures OnEdges(d, a, 2, hi) == OnEdges(d, b, 2, hi)
  {
    if hi > 2 { OnEdgesLocal(d, a, b, hi - 1); }
  }

  /** The bits that a decoder certainly has after `count` entries. */
  function KnownBits(msg: seq<bv8>, idle: seq<bool>, count: nat): nat
    requires 1 <= count <= |Edges(true, MessageLine(msg, idle))| + 1
  {
    DataCount(Known(MessageLine(msg, idle), |msg|, count))
  }

  /** Decoding any prefix of the edges agrees with the message on every data bit
      before the first edge that is still missing. */
  lemma PrefixAgrees(adc: seq<uint16>, total: nat, base: int, msg: seq<bv8>, idle: seq<bool>, count: nat)
    requires 1 <= |msg| <= MAX_MSG_LEN && |idle| <= 1
    requires 2 <= count <= total <= |adc|
    requires Timed(adc[..total], MessageLine(msg, idle), base)
    ensures KnownBits(msg, idle, count) <= 8 * |msg|
    ensures var bits := Demodulate(adc, count, 2, adc[1], 2);
      && |bits| == MAX_BITS
      && MessageBits(msg)[..KnownBits(msg, idle, count)] <= bits
  {
    var levels := MessageLine(msg, idle);
    var known := Known(levels, |msg|, count);
    MessageLineIsLine(msg, idle);
    FilledBits(adc[..total], levels, base, |msg|, count);
    OnEdgesLocal(Demod(adc[1], 2, false, true, [], false), adc[..total], adc, count);
    if count < total {
      EdgeWithin(levels, |msg|, count - 1);
    }
    DataBitsOfFramed(true, msg, idle, known);
  }

  lemma EdgeWithin(levels: seq<bool>, n: nat, i: nat)
    requires Line(levels, n) && i < |Edges(true, levels)|
    ensures Edges(true, levels)[i] <= GROUP * n
  {
    EdgeBounds(levels, i);
  }

  /** Every message of 1 to 16 octets is restored from its edge times, each up to
      two samples off, whatever follows the message on the line and whatever the
      rest of the recording buffer holds. */
  lemma JitterTolerantDecoding(adc: seq<uint16>, count: nat, base: int, msg: seq<bv8>, idle: seq<bool>)
    requires 1 <= |msg| <= MAX_MSG_LEN && |idle| <= 1
    requires 2 <= count <= |adc|
    requires Timed(adc[..count], MessageLine(msg, idle), base)
    ensures msg <= Received(adc, count)
  {
    PrefixAgrees(adc, count, base, msg, idle, count);
    assert DataCount(GROUP * |msg|) == 8 * |msg|;
    assert MessageBits(msg)[..8 * |msg|] == MessageBits(msg);
    WriteMessage(Zeros(), Demodulate(adc, count, 2, adc[1], 2), msg);
  }

  lemma NibbleOfBits(x: bv8, y: bv8)
    requires forall k: nat :: k < 4 ==> BitOf(x, k) == BitOf(y, k)
    ensures x & 0xf == y & 0xf
  {
    assert BitOf(x, 0) == BitOf(y, 0) && BitOf(x, 1) == BitOf(y, 1);
    assert BitOf(x, 2) == BitOf(y, 2) && BitOf(x, 3) == BitOf(y, 3);
  }

  /** Once the first missing edge lies beyond the low nibble of the header, the
      length read from the partial recording is the length of the message. */
  lemma EarlyHeaderIsFinal(adc: seq<uint16>, total: nat, base: int, msg: seq<bv8>, idle: seq<bool>, count: nat)
    requires 1 <= |msg| <= MAX_MSG_LEN && |idle| <= 1
    requires 2 <= count <= total <= |adc|
    requires Timed(adc[..total], MessageLine(msg, idle), base)
    requires Known(MessageLine(msg, idle), |msg|, count) >= 5
    ensures Received(adc, count)[0] & 0xf == msg[0] & 0xf
  {
    var bits := Demodulate(adc, count, 2, adc[1], 2);
    PrefixAgrees(adc, total, base, msg, idle, count);
    assert KnownBits(msg, idle, count) >= 4;
    forall k: nat | k < 4 ensures BitOf(Received(adc, count)[0], k) == BitOf(msg[0], k) {
      WriteBitsAt(Zeros(), bits, 0, k);
      assert bits[k] == MessageBits(msg)[k];
    }
    NibbleOfBits(Received(adc, count)[0], msg[0]);
  }

  /** Samples of a line: period p begins at sample starts[p], up to two samples
      away from its nominal place, and every sample is on the side of the threshold
      that its period asks for. At least one high sample comes first. */
  ghost predicate SamplesOf(samples: seq<int>, thres: int, levels: seq<bool>, starts: seq<nat>, base: int) {
    && Clean(samples, thres)
    && |starts| == |levels| > 0
    && 1 <= starts[0]
    && |samples| < 0x1_0000
    && (forall p :: 0 <= p < |starts| ==>
          starts[p] < |samples| && -JITTER <= starts[p] - (base + OVERSAMPLES * p) <= JITTER)
    && (forall j :: 0 <= j < starts[0] ==> samples[j] > thres)
    && (forall p, j :: 0 <= p < |starts| && starts[p] <= j < PeriodEnd(samples, starts, p) ==>
          (samples[j] > thres <==> levels[p]))
  }

  function PeriodEnd(samples: seq<int>, starts: seq<nat>, p: nat): nat
    requires p < |starts|
  {
    if p + 1 < |starts| then starts[p + 1] else |samples|
  }

  /** Within a stretch of samples on one side no edge is recorded. */
  lemma {:induction false} QuietStretch(h: seq<bool>, a: nat, b: nat)
    requires a < b <= |h| && forall j :: a <= j < b ==> h[j] == h[a]
    ensures EdgesBelow(false, h, b) == EdgesBelow(false, h, a + 1)
    decreases b
  {
    if b > a + 1 { QuietStretch(h, a, b - 1); }
  }

  /** Every period of the list is one of the first n. */
  ghost predicate Inside(e: seq<nat>, n: nat) {
    forall i :: 0 <= i < |e| ==> e[i] < n
  }

  ghost function StartsOf(e: seq<nat>, starts: seq<nat>): (s: seq<nat>)
    requires Inside(e, |starts|)
    ensures |s| == |e| && forall i :: 0 <= i < |e| ==> s[i] == starts[e[i]]
  {
    seq(|e|, i requires 0 <= i < |e| => starts[e[i]])
  }

  lemma {:induction false} EdgesBelowBound(initial: bool, levels: seq<bool>, p: nat)
    requires p <= |levels|
    ensures forall i :: 0 <= i < |EdgesBelow(initial, levels, p)| ==> EdgesBelow(initial, levels, p)[i] < p
  {
    EdgesBelowSound(initial, levels, p);
  }

  /** The first period begins the recording with the rise at sample 0. */
  lemma RiseAndLead(samples: seq<int>, thres: int, levels: seq<bool>, starts: seq<nat>, base: int)
    requires SamplesOf(samples, thres, levels, starts, base)
    ensures EdgesBelow(false, Highs(samples, thres), starts[0]) == [0]
    ensures Highs(samples, thres)[starts[0] - 1]
  {
    var h := Highs(samples, thres);
    QuietStretch(h, 0, starts[0]);
    assert EdgesBelow(false, h, 0) == [];
  }

  lemma StartsOfAppend(e: seq<nat>, p: nat, starts: seq<nat>)
    requires p < |starts| && Inside(e, |starts|)
    ensures StartsOf(e + [p], starts) == StartsOf(e, starts) + [starts[p]]
  {
  }

  /** Up to the start of period p the recorder holds the rise and then the start of
      every period that began with an edge. */
  ghost predicate HeldUpTo(h: seq<bool>, levels: seq<bool>, starts: seq<nat>, p: nat)
    requires p < |starts| && |levels| == |starts|
  {
    && Inside(EdgesBelow(true, levels, p), |starts|)
    && 1 <= starts[p] <= |h|
    && EdgesBelow(false, h, starts[p]) == [0] + StartsOf(EdgesBelow(true, levels, p), starts)
    && h[starts[p] - 1] == Before(true, levels, p)
  }

  lemma HeldOnePeriodMore(h: seq<bool>, levels: seq<bool>, starts: seq<nat>, p: nat)
    requires p + 1 < |starts| && |levels| == |starts| && HeldUpTo(h, levels, starts, p)
    requires starts[p] < starts[p + 1] <= |h| && h[starts[p + 1] - 1] == levels[p]
    requires EdgesBelow(false, h, starts[p + 1])
          == EdgesBelow(false, h, starts[p]) + (if IsEdge(true, levels, p) then [starts[p]] else [])
    ensures HeldUpTo(h, levels, starts, p + 1)
  {
    var e, edge := EdgesBelow(true, levels, p), IsEdge(true, levels, p);
    StartsGrow(e, p, edge, starts);
    assert EdgesBelow(true, levels, p + 1) == e + (if edge then [p] else []);
  }

  lemma RecordedOneMore(samples: seq<int>, thres: int, levels: seq<bool>, starts: seq<nat>, base: int, p: nat,
                        h: seq<bool>)
    requires SamplesOf(samples, thres, levels, starts, base) && p + 1 < |starts| && h == Highs(samples, thres)
    requires HeldUpTo(h, levels, starts, p)
    ensures HeldUpTo(h, levels, starts, p + 1)
  {
    RecordedPeriod(samples, thres, levels, starts, base, p);
    assert PeriodEnd(samples, starts, p) == starts[p + 1];
    HeldOnePeriodMore(h, levels, starts, p);
  }

  lemma {:induction false} RecordedUpTo(samples: seq<int>, thres: int, levels: seq<bool>, starts: seq<nat>,
                                        base: int, p: nat)
    requires SamplesOf(samples, thres, levels, starts, base) && p < |starts|
    ensures HeldUpTo(Highs(samples, thres), levels, starts, p)
  {
    if p == 0 {
      HeldAtFirst(samples, thres, levels, starts, base);
    } else {
      var h := Highs(samples, thres);
      RecordedUpTo(samples, thres, levels, starts, base, p - 1);
      RecordedOneMore(samples, thres, levels, starts, base, p - 1, h);
    }
  }

  lemma HeldAtFirst(samples: seq<int>, thres: int, levels: seq<bool>, starts: seq<nat>, base: int)
    requires SamplesOf(samples, thres, levels, starts, base)
    ensures HeldUpTo(Highs(samples, thres), levels, starts, 0)
  {
    RiseAndLead(samples, thres, levels, starts, base);
  }

  lemma StartsGrow(e: seq<nat>, p: nat, edge: bool, starts: seq<nat>)
    requires p < |starts| && Inside(e, |starts|)
    ensures var more := e + (if edge then [p] else []);
      && Inside(more, |starts|)
      && [0] + StartsOf(more, starts) == ([0] + StartsOf(e, starts)) + (if edge then [starts[p]] else [])
  {
    if edge {
      StartsOfAppend(e, p, starts);
    } else {
      assert e + [] == e;
    }
  }

  /** One period adds its start if it begins with an edge, and nothing else. */
  lemma RecordedPeriod(samples: seq<int>, thres: int, levels: seq<bool>, starts: seq<nat>, base: int, p: nat)
    requires SamplesOf(samples, thres, levels, starts, base) && p < |starts|
    requires 1 <= starts[p] && Highs(samples, thres)[starts[p] - 1] == Before(true, levels, p)
    ensures starts[p] < PeriodEnd(samples, starts, p) <= |samples|
    ensures EdgesBelow(false, Highs(samples, thres), PeriodEnd(samples, starts, p))
         == EdgesBelow(false, Highs(samples, thres), starts[p])
            + (if IsEdge(true, levels, p) then [starts[p]] else [])
    ensures Highs(samples, thres)[PeriodEnd(samples, starts, p) - 1] == levels[p]
  {
    var h, end := Highs(samples, thres), PeriodEnd(samples, starts, p);
    forall j | starts[p] <= j < end ensures h[j] == levels[p] {
      assert samples[j] > thres <==> levels[p];
    }
    QuietStretch(h, starts[p], end);
  }

  lemma RecordedStarts(samples: seq<int>, thres: int, levels: seq<bool>, starts: seq<nat>, base: int)
    requires SamplesOf(samples, thres, levels, starts, base)
    ensures Inside(Edges(true, levels), |starts|)
    ensures Crossings(samples, thres, |samples|) == [0] + StartsOf(Edges(true, levels), starts)
  {
    var q := |levels| - 1;
    CrossingsAreEdges(samples, thres, |samples|);
    EdgesBelowBound(true, levels, |levels|);
    RecordedUpTo(samples, thres, levels, starts, base, q);
    RecordedPeriod(samples, thres, levels, starts, base, q);
    StartsOfAppend(EdgesBelow(true, levels, q), q, starts);
  }

  /** The recorder turns samples of a line into its edge times. */
  lemma RecordedTimes(samples: seq<int>, thres: int, levels: seq<bool>, starts: seq<nat>, base: int)
    requires SamplesOf(samples, thres, levels, starts, base)
    ensures var c := Crossings(samples, thres, |samples|);
      && |c| == |Edges(true, levels)| + 1
      && (forall i :: 0 <= i < |c| ==> c[i] < 0x1_0000)
      && Timed(c, levels, base)
  {
    RecordedStarts(samples, thres, levels, starts, base);
    CrossingsAreEdges(samples, thres, |samples|);
    EdgesBelowBound(false, Highs(samples, thres), |samples|);
    var c := Crossings(samples, thres, |samples|);
    forall i | 0 <= i < |Edges(true, levels)| ensures Near(c[i + 1], base, Edges(true, levels)[i]) {
      var p := Edges(true, levels)[i];
      assert c[i + 1] == starts[p];
    }
  }

  /** From samples to octets: a buffer that holds what was recorded from the samples
      of a framed message yields its octets. */
  lemma SamplesDecode(samples: seq<int>, thres: int, starts: seq<nat>, base: int,
                      msg: seq<bv8>, idle: seq<bool>, adc: seq<uint16>)
    requires 1 <= |msg| <= MAX_MSG_LEN && |idle| <= 1
    requires SamplesOf(samples, thres, MessageLine(msg, idle), starts, base)
    requires |adc| == ADC_BUF_LEN && Crossings(samples, thres, |samples|) <= adc
    ensures msg <= Received(adc, |Crossings(samples, thres, |samples|)|)
  {
    var c := Crossings(samples, thres, |samples|);
    RecordedTimes(samples, thres, MessageLine(msg, idle), starts, base);
    MessageLineIsLine(msg, idle);
    FirstEdge(MessageLine(msg, idle), |msg|);
    assert adc[..|c|] == c;
    JitterTolerantDecoding(adc, |c|, base, msg, idle);
  }

  /** The same for the channel object, in any state it can reach. */
  lemma ChannelDecodes(ch: EarbudChannel, starts: seq<nat>, base: int, msg: seq<bv8>, idle: seq<bool>)
    requires 1 <= |msg| <= MAX_MSG_LEN && |idle| <= 1
    requires ch.Valid() && SamplesOf(ch.samples, ch.adcThres, MessageLine(msg, idle), starts, base)
    ensures msg <= Received(ch.adcBuf[..], ch.readIdx)
  {
    assert ch.adcBuf[..ch.readIdx] <= ch.adcBuf[..];
    SamplesDecode(ch.samples, ch.adcThres, starts, base, msg, idle, ch.adcBuf[..]);
  }

  lemma ReceivedLocal(a: seq<uint16>, b: seq<uint16>, count: nat)
    requires 2 <= count <= |a| && count <= |b| && a[..count] == b[..count]
    ensures Received(a, count) == Received(b, count)
  {
    assert a[1] == a[..count][1] == b[1];
    OnEdgesLocal(Demod(a[1], 2, false, true, [], false), a[..count], a, count);
    OnEdgesLocal(Demod(a[1], 2, false, true, [], false), b[..count], b, count);
  }

  /** What has been recorded before sample `seen`: all the entries below it. */
  lemma RecordedBefore(samples: seq<int>, thres: int, seen: nat)
    requires Clean(samples, thres) && seen <= |samples|
    ensures var c, k := Crossings(samples, thres, |samples|), |Crossings(samples, thres, seen)|;
      Crossings(samples, thres, seen) <= c && forall i :: 0 <= i < |c| ==> (c[i] < seen <==> i < k)
  {
    CrossingsAreEdges(samples, thres, seen);
    CrossingsAreEdges(samples, thres, |samples|);
    EdgesBelowPrefix(false, Highs(samples, thres), seen, |samples|);
  }

  /** Once period 5 has begun, the recording covers the low nibble. */
  lemma NibbleCovered(samples: seq<int>, thres: int, starts: seq<nat>, base: int,
                      msg: seq<bv8>, idle: seq<bool>, seen: nat)
    requires 1 <= |msg| <= MAX_MSG_LEN && |idle| <= 1
    requires SamplesOf(samples, thres, MessageLine(msg, idle), starts, base)
    requires starts[5] <= seen <= |samples|
    ensures var k := |Crossings(samples, thres, seen)|;
      2 <= k <= |Edges(true, MessageLine(msg, idle))| + 1 && Known(MessageLine(msg, idle), |msg|, k) >= 5
  {
    var levels := MessageLine(msg, idle);
    var c, k := Crossings(samples, thres, |samples|), |Crossings(samples, thres, seen)|;
    RecordedBefore(samples, thres, seen);
    RecordedStarts(samples, thres, levels, starts, base);
    MessageLineIsLine(msg, idle);
    FirstEdge(levels, |msg|);
    assert c[0] == 0 && c[1] == starts[0];
    if k < |c| {
      var p := Edges(true, levels)[k - 1];
      assert c[k] == starts[p];
      assert seen <= starts[p];
      assert starts[5] - (base + OVERSAMPLES * 5) >= -JITTER;
      assert starts[p] - (base + OVERSAMPLES * p) <= JITTER;
    }
  }

  /** The header is read while the packet is still arriving. If the sixth period has
      begun by then, the octet count is already the final one. */
  lemma HeaderInTime(samples: seq<int>, thres: int, starts: seq<nat>, base: int,
                     msg: seq<bv8>, idle: seq<bool>, seen: nat, adc: seq<uint16>)
    requires 1 <= |msg| <= MAX_MSG_LEN && |idle| <= 1
    requires SamplesOf(samples, thres, MessageLine(msg, idle), starts, base)
    requires starts[5] <= seen <= |samples|
    requires |adc| == ADC_BUF_LEN && Crossings(samples, thres, seen) <= adc
    ensures Received(adc, |Crossings(samples, thres, seen)|)[0] & 0xf == msg[0] & 0xf
  {
    var c, k := Crossings(samples, thres, |samples|), |Crossings(samples, thres, seen)|;
    NibbleCovered(samples, thres, starts, base, msg, idle, seen);
    RecordedBefore(samples, thres, seen);
    RecordedTimes(samples, thres, MessageLine(msg, idle), starts, base);
    assert c[..|c|] == c;
    EarlyHeaderIsFinal(c, |c|, base, msg, idle, k);
    assert adc[..k] == c[..k];
    ReceivedLocal(adc, c, k);
  }

  lemma {:induction false} EdgesAtMost(initial: bool, levels: seq<bool>, p: nat)
    requires p <= |levels|
    ensures |EdgesBelow(initial, levels, p)| <= p
  {
    if p > 0 { EdgesAtMost(initial, levels, p - 1); }
  }

  /** A framed message never fills the recording buffer: with the rise it has at most
      146 edges. */
  lemma RoomForMessage(samples: seq<int>, thres: int, starts: seq<nat>, base: int,
                       msg: seq<bv8>, idle: seq<bool>, k: nat)
    requires 1 <= |msg| <= MAX_MSG_LEN && |idle| <= 1 && k <= |samples|
    requires SamplesOf(samples, thres, MessageLine(msg, idle), starts, base)
    ensures |Crossings(samples[..k], thres, k)| <= GROUP * |msg| + 2 <= 146 < ADC_BUF_LEN
  {
    var levels := MessageLine(msg, idle);
    RecordedTimes(samples, thres, levels, starts, base);
    EdgesAtMost(true, levels, |levels|);
    RecordedBefore(samples, thres, k);
    CrossingsOfPrefix(samples, thres, k, k);
  }

  /** The samples of a message of the given length: its header tells that length, and the
      sixth period has begun when the header may be read. */
  ghost predicate Reply(samples: seq<int>, thres: int, starts: seq<nat>, base: int, msg: seq<bv8>, idle: seq<bool>) {
    && 1 <= |msg| <= MAX_MSG_LEN && |idle| <= 1
    && (msg[0] & 0xf) as int + 1 == |msg|
    && SamplesOf(samples, thres, MessageLine(msg, idle), starts, base)
    && starts[5] <= 10 * OVERSAMPLES + 1
    && (forall j :: 0 <= j < |samples| ==> 0 <= samples[j] < 0x8000)
  }

  /** Of the first n samples the channel has recorded all, or all up to its end index. */
  ghost predicate Heard(ch: EarbudChannel, samples: seq<int>, n: nat)
    reads ch, ch.adcBuf
  {
    && ch.Valid() && ch.startReading && |ch.samples| <= n <= |samples|
    && ch.samples == samples[..|ch.samples|]
    && (|ch.samples| < n ==> ch.endIdx as int <= |ch.samples|)
  }

  method HearOne(ch: EarbudChannel, samples: seq<int>, n: nat, ghost starts: seq<nat>, ghost base: int,
                 ghost msg: seq<bv8>, ghost idle: seq<bool>)
    requires Heard(ch, samples, n) && n < |samples| && Reply(samples, ch.adcThres, starts, base, msg, idle)
    modifies ch, ch.adcBuf
    ensures Heard(ch, samples, n + 1)
    ensures ch.adcThres == old(ch.adcThres) && ch.endIdx == old(ch.endIdx) && ch.numRxOctets == old(ch.numRxOctets)
  {
    var k := |ch.samples|;
    if k == n {
      RoomForMessage(samples, ch.adcThres, starts, base, msg, idle, n + 1);
      assert samples[..n] + [samples[n]] == samples[..n + 1];
    }
    var active, overrun := ch.Process(samples[n]);
  }

  method Hear(ch: EarbudChannel, samples: seq<int>, from: nat, to: nat, ghost starts: seq<nat>, ghost base: int,
              ghost msg: seq<bv8>, ghost idle: seq<bool>)
    requires Heard(ch, samples, from) && from <= to <= |samples|
    requires Reply(samples, ch.adcThres, starts, base, msg, idle)
    modifies ch, ch.adcBuf
    ensures Heard(ch, samples, to)
    ensures ch.adcThres == old(ch.adcThres) && ch.endIdx == old(ch.endIdx) && ch.numRxOctets == old(ch.numRxOctets)
  {
    for n := from to to
      invariant Heard(ch, samples, n) && ch.adcThres == old(ch.adcThres) && ch.endIdx == old(ch.endIdx)
      invariant ch.numRxOctets == old(ch.numRxOctets)
    {
      HearOne(ch, samples, n, starts, base, msg, idle);
    }
  }

  /** The samples before the line rises, and the one with which it does. */
  method AwaitRise(ch: EarbudChannel, quiet: seq<int>, rise: int)
    requires ch.Valid() && ch.samples == [] && !ch.startReading && ch.endIdx == EndOfPacket(MAX_MSG_LEN) as uint16
    requires forall j :: 0 <= j < |quiet| ==> 0 <= quiet[j] <= ch.adcThres && quiet[j] < 0x8000
    requires ch.adcThres < rise < 0x8000
    modifies ch, ch.adcBuf
    ensures ch.Valid() && ch.samples == [] && ch.startReading
    ensures ch.adcThres == old(ch.adcThres) && ch.endIdx == old(ch.endIdx)
  {
    for n := 0 to |quiet|
      invariant ch.Valid() && ch.samples == [] && !ch.startReading
      invariant ch.adcThres == old(ch.adcThres) && ch.endIdx == old(ch.endIdx)
    {
      assert Crossings([], ch.adcThres, 0) == [];
      var active, overrun := ch.Process(quiet[n]);
    }
    assert Crossings([], ch.adcThres, 0) == [];
    var active, overrun := ch.Process(rise);
  }

  /** The header read from what has been heard gives the length of the message. */
  method HearHeader(ch: EarbudChannel, ghost samples: seq<int>, ghost n: nat, ghost starts: seq<nat>, ghost base: int,
                    ghost msg: seq<bv8>, ghost idle: seq<bool>)
    requires Heard(ch, samples, n) && Reply(samples, ch.adcThres, starts, base, msg, idle)
    requires 10 * OVERSAMPLES < n && ch.endIdx == EndOfPacket(MAX_MSG_LEN) as uint16
    modifies ch
    ensures Heard(ch, samples, n) && ch.adcThres == old(ch.adcThres)
    ensures ch.numRxOctets == |msg| && ch.endIdx == EndOfPacket(|msg|) as uint16
    ensures ch.wait == old(ch.wait)
  {
    var k := |ch.samples|;
    CrossingsOfPrefix(samples, ch.adcThres, k, k);
    assert ch.adcBuf[..ch.readIdx] <= ch.adcBuf[..];
    HeaderInTime(samples, ch.adcThres, starts, base, msg, idle, k, ch.adcBuf[..]);
    var header := ch.ReadHeader();
  }

  /** The shortened end index still covers the last edge of the message. */
  lemma EndCoversMessage(samples: seq<int>, thres: int, starts: seq<nat>, base: int,
                         msg: seq<bv8>, idle: seq<bool>, k: nat)
    requires Reply(samples, thres, starts, base, msg, idle)
    requires k <= |samples| && (k < |samples| ==> EndOfPacket(|msg|) <= k)
    ensures SamplesOf(samples[..k], thres, MessageLine(msg, idle), starts, base)
  {
  }

  /** The whole reception of one message on one channel: the thresholds are set, the line
      is quiet and rises, its samples come in, the header is read at any time after the
      first ten periods, more samples come in, and the octets are fetched. */
  method ReceiveMessage(ch: EarbudChannel, threshold: nat, quiet: seq<int>, rise: int, samples: seq<int>, at: nat,
                        buf: array<bv8>, ghost starts: seq<nat>, ghost base: int,
                        ghost msg: seq<bv8>, ghost idle: seq<bool>)
    requires ch.Valid() && ch.samples == [] && !ch.startReading && ch.adcCalCnt > 0
    requires buf.Length == MAX_MSG_LEN && 10 * OVERSAMPLES < at <= |samples|
    requires var thres := (ch.adcCalibrate / ch.adcCalCnt + threshold) % 0x1_0000;
      && Reply(samples, thres, starts, base, msg, idle) && thres < rise < 0x8000
      && forall j :: 0 <= j < |quiet| ==> 0 <= quiet[j] <= thres && quiet[j] < 0x8000
    modifies ch, ch.adcBuf, buf
    ensures ch.Valid() && ch.numRxOctets == |msg| && msg <= buf[..]
  {
    ch.Arm(threshold);
    AwaitRise(ch, quiet, rise);
    Hear(ch, samples, 0, at, starts, base, msg, idle);
    HearHeader(ch, samples, at, starts, base, msg, idle);
    Hear(ch, samples, at, |samples|, starts, base, msg, idle);
    EndCoversMessage(samples, ch.adcThres, starts, base, msg, idle, |ch.samples|);
    ChannelDecodes(ch, starts, base, msg, idle);
    ch.FetchRxData(buf);
  }
}
